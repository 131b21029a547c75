/** The server's route decisions (backend/app.py): each route reads the
    request's JSON object and the read-only user table and answers with a
    status code and a JSON body. */
module Server {
  import opened Basics

  /** A JSON value as Flask decodes it; numbers are kept as reals. */
  datatype Json =
    | Null
    | Bool(b: bool)
    | Num(n: real)
    | Str(s: string)
    | Arr(items: seq<Json>)
    | Obj(fields: map<string, Json>)

  /** Python truthiness of the decoded value: `None`, `False`, zero and empty
      strings, lists and dicts are false. */
  predicate Truthy(v: Json)
  {
    match v
    case Null => false
    case Bool(b) => b
    case Num(n) => n != 0.0
    case Str(s) => s != ""
    case Arr(items) => items != []
    case Obj(fields) => fields != map[]
  }

  /** Python's `data.get(key)`: the value, or `None` when the key is absent. */
  function Get(data: map<string, Json>, key: string): (v: Json)
  {
    if key in data then data[key] else Null
  }

  /** A route's answer: a status code with a JSON object, or an uncaught
      exception, which Flask turns into a 500 page. */
  datatype Reply = Reply(code: int, body: map<string, Json>) | InternalError

  /** One entry of the user table: `{'password': ...}`. */
  datatype Account = Account(password: string)

  /** The `User` object Flask-Login keeps for a session. */
  datatype User = User(id: string)

  /** The mock user database. */
  const Users: map<string, Account> := map["gurwinder" := Account("password123")]

  // ---------------------------------------------------------------------------
  // POST /validate

  /** The honeypot was touched: a non-empty trap value or a true click flag. */
  predicate HoneypotTripped(data: map<string, Json>)
  {
    Truthy(Get(data, "honeypot_field")) || Truthy(Get(data, "honeypot_clicked"))
  }

  /** The passive pre-login check: the honeypot first, then the username. */
  function Validate(data: map<string, Json>): (r: Reply)
    ensures r.Reply? && "valid" in r.body && "message" in r.body
    ensures r.code == 403 <==> HoneypotTripped(data)
    ensures r.code == 400 <==> !HoneypotTripped(data) && !Truthy(Get(data, "username"))
    ensures r.code == 200 <==> !HoneypotTripped(data) && Truthy(Get(data, "username"))
    ensures r.body["valid"] == Bool(r.code == 200)
    ensures r.code == 403 ==> r.body["message"] == Str("Access Denied")
    ensures r.code == 400 ==> r.body["message"] == Str("Username is missing")
    ensures r.code == 200 ==> r.body["message"] == Str("Human behavior detected")
  {
    if HoneypotTripped(data) then
      Reply(403, map["valid" := Bool(false), "message" := Str("Access Denied")])
    else if !Truthy(Get(data, "username")) then
      Reply(400, map["valid" := Bool(false), "message" := Str("Username is missing")])
    else
      Reply(200, map["valid" := Bool(true), "message" := Str("Human behavior detected")])
  }

  /** Only the username and the two honeypot fields matter: the interaction
      counts and the autofill flag never change the answer. */
  lemma ValidateReadsThreeFields(d1: map<string, Json>, d2: map<string, Json>)
    requires Get(d1, "username") == Get(d2, "username")
    requires Get(d1, "honeypot_field") == Get(d2, "honeypot_field")
    requires Get(d1, "honeypot_clicked") == Get(d2, "honeypot_clicked")
    ensures Validate(d1) == Validate(d2)
  {
  }

  /** The honeypot wins over a missing username: 403, not 400. */
  lemma HoneypotBeforeUsername(data: map<string, Json>)
    requires Truthy(Get(data, "honeypot_field"))
    requires "username" !in data
    ensures Validate(data).code == 403
  {
  }

  /** The first request of the bot script: a filled trap field is refused with 403. */
  lemma ScriptedHoneypotAttackRefused()
    ensures Validate(map[
      "username" := Str("bot_user_99"),
      "mouse_movements" := Num(5.0),
      "focus_events" := Num(0.0),
      "clipboard_actions" := Num(0.0),
      "form_autofill_patterns" := Bool(true),
      "honeypot_field" := Str("I am a bot")]).code == 403
  {
  }

  // ---------------------------------------------------------------------------
  // POST /login

  /** A dict key must be hashable: looking up a list or a dict raises `TypeError`. */
  predicate Unhashable(v: Json)
  {
    v.Arr? || v.Obj?
  }

  /** The posted credentials match an entry of `users`. */
  predicate Matches(users: map<string, Account>, username: Json, password: Json)
  {
    username.Str? && username.s in users && password == Str(users[username.s].password)
  }

  function Login(users: map<string, Account>, data: map<string, Json>): (r: Reply)
    ensures r.InternalError? <==> Unhashable(Get(data, "username"))
    ensures r.Reply? ==> (r.code == 200 <==> Matches(users, Get(data, "username"), Get(data, "password")))
    ensures r.Reply? && r.code == 200 ==> "user" in r.body && r.body["user"] == Get(data, "username")
    ensures r.Reply? && r.code == 200 ==> "message" in r.body && r.body["message"] == Str("Login successful")
    ensures r.Reply? && r.code != 200 ==> r.code == 401 && r.body == map["message" := Str("Invalid credentials")]
  {
    var username, password := Get(data, "username"), Get(data, "password");
    if Unhashable(username) then InternalError
    else if Matches(users, username, password) then
      Reply(200, map["message" := Str("Login successful"), "user" := username])
    else
      Reply(401, map["message" := Str("Invalid credentials")])
  }

  /** The script's credentials log in against the mock database; a wrong password does not. */
  lemma MockUserLogsIn()
    ensures Login(Users, map["username" := Str("gurwinder"), "password" := Str("password123")]).code == 200
    ensures Login(Users, map["username" := Str("gurwinder"), "password" := Str("password")]).code == 401
  {
  }

  // ---------------------------------------------------------------------------
  // Flask-Login's user loader

  function LoadUser(users: map<string, Account>, userId: string): (r: Option<User>)
    ensures r.Some? <==> userId in users
    ensures r.Some? ==> r.value.id == userId
  {
    if userId in users then Some(User(userId)) else None
  }

  /** A user who can log in can be reloaded from the session under the same id. */
  lemma LoginThenLoad(users: map<string, Account>, data: map<string, Json>)
    requires Login(users, data).Reply? && Login(users, data).code == 200
    ensures Get(data, "username").Str?
    ensures LoadUser(users, Get(data, "username").s) == Some(User(Get(data, "username").s))
  {
  }

  // ---------------------------------------------------------------------------
  // POST /predict

  /** The post-login scan; `isBot` is the trained model's verdict on the posted samples. */
  function Predict(data: map<string, Json>, isBot: bool): (r: Reply)
    ensures r.Reply? && "is_human" in r.body && "reason" in r.body
    ensures r.code == (if isBot then 403 else 200)
    ensures r.body["is_human"] == Bool(!isBot)
    ensures r.body["reason"] == Str(if isBot then "Abnormal behavior patterns detected by AI" else "Behavior Analysis Passed")
  {
    if isBot then
      Reply(403, map["is_human" := Bool(false), "reason" := Str("Abnormal behavior patterns detected by AI")])
    else
      Reply(200, map["is_human" := Bool(true), "reason" := Str("Behavior Analysis Passed")])
  }

  /** The answer depends on the verdict alone: the route itself never looks at
      the posted fields, the trap field included, so a filled honeypot with a
      human verdict still passes. */
  lemma PredictIgnoresPayload(d1: map<string, Json>, d2: map<string, Json>, isBot: bool)
    ensures Predict(d1, isBot) == Predict(d2, isBot)
    ensures Truthy(Get(d1, "honeypot_field")) && !isBot ==> Predict(d1, isBot).code == 200
  {
  }
}
