/**
 * The HTTP handlers of the task service over the store gorm gives them:
 * registration and login on the users table, and the task operations,
 * each scoped to the user id the authentication gate put in the request
 * context.
 */
module Handlers {
  import opened Wrappers
  import Numeric
  import Jwt
  import Middleware
  import Configuration

  /** A users row. The password is the bcrypt digest, never the plaintext. */
  datatype User = User(id: nat, username: string, email: string, password: string)

  /** A tasks row; userID is the owner. */
  datatype Task = Task(id: nat, description: string, statusCompleted: bool, userID: nat)

  /** Request bodies as the JSON binder hands them over; a nil status pointer is None. */
  datatype LoginInput = LoginInput(email: string, password: string)
  datatype RegisterInput = RegisterInput(username: string, email: string, password: string)
  datatype TaskInput = TaskInput(description: string, status: Option<bool>)

  /** The JSON bodies the handlers answer with. */
  datatype Body =
    | Error(message: string)                              // {"error": message}
    | BindError                                           // {"error": ...} with the binder's own text
    | StoreError                                          // {"error": ...} with the store's own text
    | Id(id: nat)                                         // {"id": id}
    | Profile(id: nat, username: string, email: string)   // {"id", "username", "email"}
    | OneTask(task: Task)                                 // the task itself
    | Tasks(tasks: set<Task>)                             // {"tasks": [...]}
    | Token(token: string)                                // {"token": token}
    | Message(message: string)                            // {"message": message}

  datatype Response = Response(status: nat, body: Body)

  const UserNotFound: string := "user not found"
  const UserIDMissing: string := "user id missing in context"
  const InvalidTaskID: string := "invalid task id"
  const TaskNotFound: string := "task not found"
  const TaskDeleted: string := "task deleted"
  const WrongEmail: string := "wrong Email address"
  const WrongPassword: string := "wrong Password"
  const HashFailed: string := "couldn't hash password"
  const TokenFailed: string := "could not create token"

  /** A status left out of the request body (a nil *bool) means "not completed". */
  function StatusOrDefault(status: Option<bool>): (completed: bool)
    ensures completed <==> status == Some(true)
  {
    match status
    case Some(b) => b
    case None => false
  }

  /** Every row sits under its own primary key. */
  ghost predicate KeyedByID(tasks: map<nat, Task>) {
    forall k :: k in tasks ==> tasks[k].id == k
  }

  /**
   * The row `WHERE id = ? AND user_id = ?` selects, found through the
   * primary key; a negative id selects nothing.
   */
  function FindOwned(tasks: map<nat, Task>, id: int, uid: nat): (r: Option<Task>)
    requires KeyedByID(tasks)
    ensures r.Some? <==> exists t :: t in tasks.Values && t.id == id && t.userID == uid
    ensures r.Some? ==> r.value in tasks.Values && r.value.id == id && r.value.userID == uid
  {
    if 0 <= id && id in tasks && tasks[id].userID == uid then Some(tasks[id]) else None
  }

  /** The rows one user owns, under their keys. */
  function OwnRows(tasks: map<nat, Task>, uid: nat): (own: map<nat, Task>)
    ensures forall k :: k in own <==> k in tasks && tasks[k].userID == uid
    ensures forall k :: k in own ==> own[k] == tasks[k]
  {
    map k | k in tasks && tasks[k].userID == uid :: tasks[k]
  }

  /** Between two states of the table, no row of any user but uid appeared, vanished or changed. */
  ghost predicate OthersUnchanged(before: map<nat, Task>, after: map<nat, Task>, uid: nat) {
    && (forall k :: k in before && before[k].userID != uid ==> k in after && after[k] == before[k])
    && (forall k :: k in after && after[k].userID != uid ==> k in before && before[k] == after[k])
  }

  /** What GetTask, UpdateTask and DeleteTask see of a table depends on the caller's own rows only. */
  lemma FindOwnedSeesOwnRows(a: map<nat, Task>, b: map<nat, Task>, id: int, uid: nat)
    requires KeyedByID(a) && KeyedByID(b)
    requires OwnRows(a, uid) == OwnRows(b, uid)
    ensures FindOwned(a, id, uid) == FindOwned(b, id, uid)
  {
  }

  /** Another user's task is indistinguishable from one that does not exist. */
  lemma ForeignTaskLooksAbsent(tasks: map<nat, Task>, id: nat, uid: nat)
    requires KeyedByID(tasks)
    requires id in tasks && tasks[id].userID != uid
    ensures FindOwned(tasks, id, uid) == FindOwned(tasks - {id}, id, uid) == None
  {
  }

  // ---------------------------------------------------------------------
  // Token issuing in Login.

  const NanosPerSecond: nat := 1_000_000_000
  const NanosPerHour: nat := 3_600_000_000_000
  /** The largest number of hours whose time.Duration fits in an int64. */
  const MaxHours: nat := 2_562_047

  /** Login's lifetime rule: a configured 0 means 24 hours; any other value, negative too, is used as is. */
  function EffectiveExpHours(configured: int): (hours: int)
    ensures hours != 0
    ensures configured != 0 ==> hours == configured
    ensures configured == 0 ==> hours == 24
  {
    if configured == 0 then 24 else configured
  }

  /**
   * jwt.NewNumericDate(now.Add(time.Duration(hours) * time.Hour)) with `now`
   * in whole Unix seconds: the Duration product wraps around in int64
   * nanoseconds, then the instant is truncated to the second.
   */
  function ExpiresAt(now: int, hours: int): (expiry: int)
    // Within the int64 Duration range a token lives exactly that many hours (negative: expired at issue).
    ensures -(MaxHours as int) <= hours <= MaxHours ==> expiry == now + hours * 3600
    // Whatever the hours, the expiry lies within the span an int64 of nanoseconds covers.
    ensures now + Numeric.MinInt64 / NanosPerSecond <= expiry <= now + Numeric.MaxInt64 / NanosPerSecond
  {
    now + Numeric.Wrap64(hours * NanosPerHour) / NanosPerSecond
  }

  /** The claims Login signs for a user id, issued at `now`. */
  function IssueClaims(uid: nat, configured: int, now: int): (c: Jwt.Claims)
    ensures c.subject == Numeric.FormatUint(uid) && c.issuedAt == now
    ensures -(MaxHours as int) <= EffectiveExpHours(configured) <= MaxHours ==>
      c.expiresAt == now + EffectiveExpHours(configured) * 3600
    ensures configured == 0 ==> c.expiresAt == now + 24 * 3600
  {
    Jwt.Claims(Numeric.FormatUint(uid), now, ExpiresAt(now, EffectiveExpHours(configured)))
  }

  /** One hour past the Duration range the product wraps negative and the token is about 292 years expired. */
  lemma ExpiryWrapsAround(now: int)
    ensures ExpiresAt(now, MaxHours + 1) == now - 9_223_371_274
  {
  }

  /** One hour below the Duration range the product wraps positive: a negative lifetime gives a token valid for about 292 years. */
  lemma NegativeExpiryWrapsAround(now: int)
    ensures ExpiresAt(now, -(MaxHours as int) - 1) == now + 9_223_371_273
  {
  }

  /**
   * With JWT_EXP_HOURS unset, or set to anything Atoi reads as 0 ("0", "00",
   * "+0", "-0"), tokens expire 24 hours after they are issued.
   */
  lemma DefaultLifetime(environ: Configuration.Environment, uid: nat, now: int)
    requires "JWT_EXP_HOURS" !in environ || Numeric.Atoi(environ["JWT_EXP_HOURS"]) == Some(0)
    ensures IssueClaims(uid, Configuration.ConfigFrom(environ).jwtExpHrs, now).expiresAt == now + 24 * 3600
  {
    if "JWT_EXP_HOURS" in environ {
      Configuration.ExpHoursParsed(environ, 0);
    } else {
      Configuration.ExpHoursUnset(environ);
    }
  }

  /** The spellings of zero that reach Login's 0-means-24 rule through Atoi. */
  lemma ZeroSpellings()
    ensures Numeric.Atoi("0") == Some(0) && Numeric.Atoi("00") == Some(0)
    ensures Numeric.Atoi("+0") == Some(0) && Numeric.Atoi("-0") == Some(0)
  {
    assert "00"[1..] == "0" && "+0"[1..] == "0" && "-0"[1..] == "0";
  }

  /**
   * Login to gate round trip: a token Login signed for a 64-bit user id,
   * which the library accepts as a valid HS256 token carrying the signed
   * subject, admits exactly that user.
   */
  lemma IssuedTokenAdmitsUser(uid: nat, configured: int, now: int, secret: string,
                              sign: (Jwt.Claims, string) -> Option<string>,
                              verify: (string, string) -> Jwt.Verification, token: string)
    requires uid <= Numeric.MaxUint64
    requires sign(IssueClaims(uid, configured, now), secret) == Some(token)
    requires verify(token, secret) == Jwt.Parsed(Jwt.HS256, true, IssueClaims(uid, configured, now).subject)
    ensures Middleware.Authorize(Middleware.BearerPrefix + token, secret, verify) == Middleware.Accept(uid)
  {
    Middleware.TokenIsRestOfHeader(token, secret, verify);
    Middleware.AcceptsDecimalSubject(uid);
  }

  ghost predicate EmailTaken(users: map<nat, User>, email: string) {
    exists k :: k in users && users[k].email == email
  }

  /** The protected routes under /api, each with what the router passes to its handler. */
  datatype Route =
    | MeRoute
    | CreateTaskRoute(body: Option<TaskInput>)
    | ListTasksRoute
    | GetTaskRoute(param: string)
    | UpdateTaskRoute(param: string, body: Option<TaskInput>)
    | DeleteTaskRoute(param: string)

  /**
   * The database the handlers share (the package's DB): the users and tasks
   * tables, and the sequences that number their rows from 1.
   */
  class Database {
    var users: map<nat, User>
    var tasks: map<nat, Task>
    var nextUserID: nat
    var nextTaskID: nat

    ghost predicate Valid()
      reads this
    {
      && 0 < nextUserID && 0 < nextTaskID
      && (forall k :: k in users ==> users[k].id == k && k < nextUserID)
      && (forall k :: k in tasks ==> tasks[k].id == k && k < nextTaskID)
      && (forall a, b :: a in users && b in users && users[a].email == users[b].email ==> a == b)
    }

    constructor ()
      ensures Valid()
      ensures users == map[] && tasks == map[] && nextUserID == 1 && nextTaskID == 1
    {
      users, tasks := map[], map[];
      nextUserID, nextTaskID := 1, 1;
    }

    /** POST /register. The store refuses a second user with the same email. */
    method Register(body: Option<RegisterInput>, digest: Option<string>) returns (resp: Response)
      requires Valid()
      modifies this
      ensures Valid()
      ensures tasks == old(tasks) && nextTaskID == old(nextTaskID)
      ensures body.None? ==> resp == Response(400, BindError) && users == old(users) && nextUserID == old(nextUserID)
      ensures body.Some? && digest.None? ==>
        resp == Response(400, Error(HashFailed)) && users == old(users) && nextUserID == old(nextUserID)
      ensures body.Some? && digest.Some? && EmailTaken(old(users), body.value.email) ==>
        resp == Response(400, StoreError) && users == old(users) && nextUserID == old(nextUserID) + 1
      ensures body.Some? && digest.Some? && !EmailTaken(old(users), body.value.email) ==>
        var id, input := old(nextUserID), body.value;
        && id !in old(users)
        && users == old(users)[id := User(id, input.username, input.email, digest.value)]
        && resp == Response(200, Profile(id, input.username, input.email))
        && nextUserID == id + 1
    {
      if body.None? {
        return Response(400, BindError);
      }
      var input := body.value;
      if digest.None? {
        return Response(400, Error(HashFailed));
      }
      var id := nextUserID;
      nextUserID := nextUserID + 1;
      if exists k :: k in users && users[k].email == input.email {
        return Response(400, StoreError);
      }
      var user := User(id, input.username, input.email, digest.value);
      users := users[id := user];
      resp := Response(200, Profile(user.id, user.username, user.email));
    }

    /**
     * POST /login: `matches(digest, password)` is bcrypt's comparison and
     * `sign(claims, secret)` HS256 signing; `now` is the current time and
     * `cfg` the global AppConfig that LoadConfig published.
     */
    method Login(body: Option<LoginInput>, cfg: Configuration.Config, now: int,
                 matches: (string, string) -> bool,
                 sign: (Jwt.Claims, string) -> Option<string>) returns (resp: Response)
      requires Valid()
      ensures body.None? ==> resp == Response(400, BindError)
      ensures body.Some? && !EmailTaken(users, body.value.email) ==> resp == Response(400, Error(WrongEmail))
      ensures body.Some? ==> forall k :: k in users && users[k].email == body.value.email ==>
        if !matches(users[k].password, body.value.password) then resp == Response(400, Error(WrongPassword))
        else match sign(IssueClaims(k, cfg.jwtExpHrs, now), cfg.jwtSecret)
          case None => resp == Response(500, Error(TokenFailed))
          case Some(token) => resp == Response(200, Token(token))
      ensures resp.status == 200 ==>
        body.Some? && exists k :: k in users && users[k].email == body.value.email && matches(users[k].password, body.value.password)
    {
      if body.None? {
        return Response(400, BindError);
      }
      var input := body.value;
      if !exists k :: k in users && users[k].email == input.email {
        return Response(400, Error(WrongEmail));
      }
      var k :| k in users && users[k].email == input.email;
      var user := users[k];
      if !matches(user.password, input.password) {
        return Response(400, Error(WrongPassword));
      }
      var signed := sign(IssueClaims(user.id, cfg.jwtExpHrs, now), cfg.jwtSecret);
      if signed.None? {
        return Response(500, Error(TokenFailed));
      }
      resp := Response(200, Token(signed.value));
    }

    /** GET /api/me: the caller's own profile, without the password digest. */
    method Me(ctx: Option<nat>) returns (resp: Response)
      requires Valid()
      ensures ctx.None? ==> resp == Response(500, Error(UserIDMissing))
      ensures ctx.Some? && ctx.value !in users ==> resp == Response(404, Error(UserNotFound))
      ensures ctx.Some? && ctx.value in users ==>
        resp == Response(200, Profile(ctx.value, users[ctx.value].username, users[ctx.value].email))
    {
      if ctx.None? {
        return Response(500, Error(UserIDMissing));
      }
      var uid := ctx.value;
      if uid !in users {
        return Response(404, Error(UserNotFound));
      }
      var user := users[uid];
      resp := Response(200, Profile(user.id, user.username, user.email));
    }

    /** POST /api/tasks: the owner is the caller from the context, never anything in the body. */
    method CreateTask(ctx: Option<nat>, body: Option<TaskInput>) returns (resp: Response)
      requires Valid()
      modifies this
      ensures Valid()
      ensures users == old(users) && nextUserID == old(nextUserID)
      ensures body.None? ==> resp == Response(400, BindError) && tasks == old(tasks) && nextTaskID == old(nextTaskID)
      ensures body.Some? && ctx.None? ==>
        resp == Response(401, Error(UserNotFound)) && tasks == old(tasks) && nextTaskID == old(nextTaskID)
      ensures body.Some? && ctx.Some? ==>
        var id := old(nextTaskID);
        && id !in old(tasks)
        && tasks == old(tasks)[id := Task(id, body.value.description, StatusOrDefault(body.value.status), ctx.value)]
        && resp == Response(200, Id(id))
        && nextTaskID == id + 1
      ensures forall k :: k in old(tasks) ==> k in tasks && tasks[k] == old(tasks)[k]
      ensures ctx.Some? ==> OthersUnchanged(old(tasks), tasks, ctx.value)
    {
      if body.None? {
        return Response(400, BindError);
      }
      var input := body.value;
      if ctx.None? {
        return Response(401, Error(UserNotFound));
      }
      var status: bool;
      if input.status.Some? {
        status := input.status.value;
      } else {
        status := false;
      }
      var task := Task(nextTaskID, input.description, status, ctx.value);
      tasks := tasks[task.id := task];
      nextTaskID := nextTaskID + 1;
      resp := Response(200, Id(task.id));
    }

    /** GET /api/tasks: exactly the caller's rows. */
    method ListTasks(ctx: Option<nat>) returns (resp: Response)
      ensures ctx.None? ==> resp == Response(401, Error(UserNotFound))
      ensures ctx.Some? ==> resp.status == 200 && resp.body.Tasks?
      ensures ctx.Some? ==> forall t :: t in resp.body.tasks <==> t in tasks.Values && t.userID == ctx.value
    {
      if ctx.None? {
        return Response(401, Error(UserNotFound));
      }
      var uid := ctx.value;
      var rows := set t | t in tasks.Values && t.userID == uid;
      resp := Response(200, Tasks(rows));
    }

    /** GET /api/tasks/:ID. */
    method GetTask(ctx: Option<nat>, param: string) returns (resp: Response)
      requires Valid()
      ensures ctx.None? ==> resp == Response(401, Error(UserNotFound))
      ensures ctx.Some? && Numeric.Atoi(param).None? ==> resp == Response(400, Error(InvalidTaskID))
      ensures ctx.Some? && Numeric.Atoi(param).Some? ==>
        resp == match FindOwned(tasks, Numeric.Atoi(param).value, ctx.value)
                case None => Response(404, Error(TaskNotFound))
                case Some(t) => Response(200, OneTask(t))
      ensures resp.status == 200 ==>
        ctx.Some? && resp.body.OneTask? && resp.body.task in tasks.Values && resp.body.task.userID == ctx.value
    {
      if ctx.None? {
        return Response(401, Error(UserNotFound));
      }
      var uid := ctx.value;
      var taskID := Numeric.Atoi(param);
      if taskID.None? {
        return Response(400, Error(InvalidTaskID));
      }
      var found := FindOwned(tasks, taskID.value, uid);
      if found.None? {
        return Response(404, Error(TaskNotFound));
      }
      resp := Response(200, OneTask(found.value));
    }

    /**
     * PUT /api/tasks/:ID: overwrites the description and sets the status to
     * the one given, or to false when the body leaves it out.
     */
    method UpdateTask(ctx: Option<nat>, param: string, body: Option<TaskInput>) returns (resp: Response)
      requires Valid()
      modifies this
      ensures Valid()
      ensures users == old(users) && nextUserID == old(nextUserID) && nextTaskID == old(nextTaskID)
      ensures body.None? ==> resp == Response(400, BindError) && tasks == old(tasks)
      ensures body.Some? && Numeric.Atoi(param).None? ==> resp == Response(400, Error(InvalidTaskID)) && tasks == old(tasks)
      ensures body.Some? && Numeric.Atoi(param).Some? && ctx.None? ==>
        resp == Response(401, Error(UserNotFound)) && tasks == old(tasks)
      ensures body.Some? && Numeric.Atoi(param).Some? && ctx.Some? ==>
        match FindOwned(old(tasks), Numeric.Atoi(param).value, ctx.value)
        case None => resp == Response(404, Error(TaskNotFound)) && tasks == old(tasks)
        case Some(t) =>
          && resp == Response(200, Id(t.id))
          && tasks == old(tasks)[t.id := Task(t.id, body.value.description, StatusOrDefault(body.value.status), t.userID)]
      ensures ctx.Some? ==> OthersUnchanged(old(tasks), tasks, ctx.value)
    {
      if body.None? {
        return Response(400, BindError);
      }
      var input := body.value;
      var taskID := Numeric.Atoi(param);
      if taskID.None? {
        return Response(400, Error(InvalidTaskID));
      }
      if ctx.None? {
        return Response(401, Error(UserNotFound));
      }
      var found := FindOwned(tasks, taskID.value, ctx.value);
      if found.None? {
        return Response(404, Error(TaskNotFound));
      }
      var task := found.value;
      task := task.(description := input.description);
      if input.status.Some? {
        task := task.(statusCompleted := input.status.value);
      } else {
        task := task.(statusCompleted := false);
      }
      tasks := tasks[task.id := task];
      resp := Response(200, Id(task.id));
    }

    /**
     * DELETE /api/tasks/:ID: removes the caller's row with that id, if any,
     * and answers 200 "task deleted" either way.
     */
    method DeleteTask(ctx: Option<nat>, param: string) returns (resp: Response)
      requires Valid()
      modifies this
      ensures Valid()
      ensures users == old(users) && nextUserID == old(nextUserID) && nextTaskID == old(nextTaskID)
      ensures ctx.None? ==> resp == Response(401, Error(UserNotFound)) && tasks == old(tasks)
      ensures ctx.Some? && Numeric.Atoi(param).None? ==> resp == Response(400, Error(InvalidTaskID)) && tasks == old(tasks)
      ensures ctx.Some? && Numeric.Atoi(param).Some? ==>
        && resp == Response(200, Message(TaskDeleted))
        && match FindOwned(old(tasks), Numeric.Atoi(param).value, ctx.value)
           case None => tasks == old(tasks)
           case Some(t) => tasks == old(tasks) - {t.id}
      ensures ctx.Some? ==> OthersUnchanged(old(tasks), tasks, ctx.value)
    {
      if ctx.None? {
        return Response(401, Error(UserNotFound));
      }
      var taskID := Numeric.Atoi(param);
      if taskID.None? {
        return Response(400, Error(InvalidTaskID));
      }
      var found := FindOwned(tasks, taskID.value, ctx.value);
      if found.Some? {
        tasks := tasks - {found.value.id};
      }
      resp := Response(200, Message(TaskDeleted));
    }

    /**
     * A request to a protected route: AuthMiddleware runs first and, when it
     * aborts, the handler never runs; otherwise the handler runs with the
     * user id from the token in its context. `secret` is AppConfig's JWT
     * secret, which the gate verifies tokens with.
     */
    method Serve(header: string, secret: string, verify: (string, string) -> Jwt.Verification, route: Route)
      returns (resp: Response)
      requires Valid()
      modifies this
      ensures Valid()
      ensures users == old(users) && nextUserID == old(nextUserID)
      ensures Middleware.Authorize(header, secret, verify).Reject? ==>
        && resp == Response(401, Error(Middleware.Authorize(header, secret, verify).message))
        && tasks == old(tasks) && nextTaskID == old(nextTaskID)
      ensures Middleware.Authorize(header, secret, verify).Accept? ==>
        OthersUnchanged(old(tasks), tasks, Middleware.Authorize(header, secret, verify).userID)
      // Once admitted, the handler runs with the gate's user id, so no "missing context" answer remains.
      ensures Middleware.Authorize(header, secret, verify).Accept? && (route.MeRoute? || route.ListTasksRoute? || route.GetTaskRoute?) ==>
        tasks == old(tasks) && nextTaskID == old(nextTaskID)
      ensures Middleware.Authorize(header, secret, verify).Accept? && route.MeRoute? ==>
        var uid := Middleware.Authorize(header, secret, verify).userID;
        && (uid !in users ==> resp == Response(404, Error(UserNotFound)))
        && (uid in users ==> resp == Response(200, Profile(uid, users[uid].username, users[uid].email)))
      ensures Middleware.Authorize(header, secret, verify).Accept? && route.ListTasksRoute? ==>
        var uid := Middleware.Authorize(header, secret, verify).userID;
        && resp.status == 200 && resp.body.Tasks?
        && (forall t :: t in resp.body.tasks <==> t in tasks.Values && t.userID == uid)
      ensures Middleware.Authorize(header, secret, verify).Accept? && route.GetTaskRoute? ==>
        var uid, id := Middleware.Authorize(header, secret, verify).userID, Numeric.Atoi(route.param);
        && (id.None? ==> resp == Response(400, Error(InvalidTaskID)))
        && (id.Some? ==> resp == match FindOwned(tasks, id.value, uid)
                                 case None => Response(404, Error(TaskNotFound))
                                 case Some(t) => Response(200, OneTask(t)))
      ensures Middleware.Authorize(header, secret, verify).Accept? && route.CreateTaskRoute? ==>
        var uid, body, id := Middleware.Authorize(header, secret, verify).userID, route.body, old(nextTaskID);
        && (body.None? ==> resp == Response(400, BindError) && tasks == old(tasks) && nextTaskID == id)
        && (body.Some? ==>
              && tasks == old(tasks)[id := Task(id, body.value.description, StatusOrDefault(body.value.status), uid)]
              && resp == Response(200, Id(id))
              && nextTaskID == id + 1)
      ensures Middleware.Authorize(header, secret, verify).Accept? && route.UpdateTaskRoute? ==>
        var uid, body, id := Middleware.Authorize(header, secret, verify).userID, route.body, Numeric.Atoi(route.param);
        && nextTaskID == old(nextTaskID)
        && (body.None? ==> resp == Response(400, BindError) && tasks == old(tasks))
        && (body.Some? && id.None? ==> resp == Response(400, Error(InvalidTaskID)) && tasks == old(tasks))
        && (body.Some? && id.Some? ==>
              match FindOwned(old(tasks), id.value, uid)
              case None => resp == Response(404, Error(TaskNotFound)) && tasks == old(tasks)
              case Some(t) =>
                && resp == Response(200, Id(t.id))
                && tasks == old(tasks)[t.id := Task(t.id, body.value.description, StatusOrDefault(body.value.status), uid)])
      ensures Middleware.Authorize(header, secret, verify).Accept? && route.DeleteTaskRoute? ==>
        var uid, id := Middleware.Authorize(header, secret, verify).userID, Numeric.Atoi(route.param);
        && nextTaskID == old(nextTaskID)
        && (id.None? ==> resp == Response(400, Error(InvalidTaskID)) && tasks == old(tasks))
        && (id.Some? ==>
              && resp == Response(200, Message(TaskDeleted))
              && match FindOwned(old(tasks), id.value, uid)
                 case None => tasks == old(tasks)
                 case Some(t) => tasks == old(tasks) - {t.id})
    {
      var decision := Middleware.Authorize(header, secret, verify);
      if decision.Reject? {
        return Response(decision.status, Error(decision.message));
      }
      var ctx := Some(decision.userID);
      match route {
        case MeRoute =>
          resp := Me(ctx);
        case CreateTaskRoute(body) =>
          resp := CreateTask(ctx, body);
        case ListTasksRoute =>
          resp := ListTasks(ctx);
        case GetTaskRoute(param) =>
          resp := GetTask(ctx, param);
        case UpdateTaskRoute(param, body) =>
          resp := UpdateTask(ctx, param, body);
        case DeleteTaskRoute(param) =>
          resp := DeleteTask(ctx, param);
      }
    }
  }

  /**
   * Register then Login with the same credentials, for a hasher whose digest
   * matches its password (bcrypt's promise): the new user is issued a token
   * for its own id.
   */
  method RegisterThenLogin(db: Database, input: RegisterInput, digest: string, cfg: Configuration.Config, now: int,
                           matches: (string, string) -> bool,
                           sign: (Jwt.Claims, string) -> Option<string>) returns (registered: Response, loggedIn: Response)
    requires db.Valid()
    requires !EmailTaken(db.users, input.email)
    requires matches(digest, input.password)
    modifies db
    ensures db.Valid()
    ensures registered == Response(200, Profile(old(db.nextUserID), input.username, input.email))
    ensures loggedIn == match sign(IssueClaims(old(db.nextUserID), cfg.jwtExpHrs, now), cfg.jwtSecret)
      case None => Response(500, Error(TokenFailed))
      case Some(token) => Response(200, Token(token))
  {
    var id := db.nextUserID;
    registered := db.Register(Some(input), Some(digest));
    assert db.users[id].email == input.email;
    loggedIn := db.Login(Some(LoginInput(input.email, input.password)), cfg, now, matches, sign);
  }

  /**
   * A walk-through: alice registers and creates a task, bob
   * cannot see it, alice deletes it and then cannot see it either.
   */
  method Walkthrough() {
    var db := new Database();
    var alice := db.Register(Some(RegisterInput("alice", "a@x.com", "secret1")), Some("digest-1"));
    assert alice == Response(200, Profile(1, "alice", "a@x.com"));
    var bob := db.Register(Some(RegisterInput("bob", "b@x.com", "secret2")), Some("digest-2"));
    assert db.users[1].email == "a@x.com";
    assert bob == Response(200, Profile(2, "bob", "b@x.com"));
    var twice := db.Register(Some(RegisterInput("alice", "a@x.com", "secret1")), Some("digest-3"));
    assert twice == Response(400, StoreError);
    var created := db.CreateTask(Some(1), Some(TaskInput("buy milk", None)));
    assert created == Response(200, Id(1));
    assert db.tasks[1] == Task(1, "buy milk", false, 1);
    Numeric.AtoiFormatInt(1);
    assert Numeric.FormatInt(1) == "1";
    var peek := db.GetTask(Some(2), "1");
    assert peek == Response(404, Error(TaskNotFound));
    var own := db.GetTask(Some(1), "1");
    assert own == Response(200, OneTask(Task(1, "buy milk", false, 1)));
    var deleted := db.DeleteTask(Some(1), "1");
    assert deleted == Response(200, Message(TaskDeleted));
    var gone := db.GetTask(Some(1), "1");
    assert gone == Response(404, Error(TaskNotFound));
  }
}
