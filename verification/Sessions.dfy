/** Bearer tokens and the browser sign-in flow of the terminal client
    (internal/svc/auth.go over internal/store/sessions.go).  Every call is one
    atomic step.  Random codes and signed tokens are values that were never seen
    before; `drawn` and `signed` remember which ones were. */
module Sessions {
  import opened Wrappers

  type Code = string
  type Token = string
  type UserId = int
  /** Nanoseconds. */
  type Instant = int

  const SECOND: int := 1_000_000_000
  const DEVICE_AUTH_TTL: int := 600 * SECOND

  datatype Row = Row(token: Option<Token>, user: Option<UserId>, expires: Instant)

  /** What the signer vouches for: the claims carry a whole-second expiry. */
  datatype Claim = Claim(user: UserId, expires: Instant) {
    predicate ValidAt(now: Instant) { now < expires - expires % SECOND }
  }

  datatype Auth = Auth(users: set<UserId>, rows: map<Code, Row>, signed: map<Token, Claim>,
                       drawn: map<Code, CodeKind>) {
    predicate Holds(code: Code, token: Token) {
      code in rows && rows[code].token == Some(token)
    }

    /** Some row, of an issued session or of a bound device code, carries the token. */
    ghost predicate Live(token: Token) {
      exists code :: code in rows && Holds(code, token)
    }
  }

  datatype CodeKind = SessionCode | DeviceCode

  const FRESH: Auth := Auth({}, map[], map[], map[])

  datatype Op =
    | Join(user: UserId)
    | Issue(user: UserId, code: Code, token: Token, expires: Instant)
    | Start(code: Code, now: Instant)
    | Poll(code: Code, now: Instant)
    | Bind(code: Code, token: Token, user: UserId, row: Option<Code>, now: Instant)
    | Logout(token: Token)
    | Resolve(token: Token, row: Option<Code>, now: Instant)

  datatype Answer =
    | Done
    | Delivered(token: Token)
    | Expired
    | Pending
    | NotFound
    | Bound(ok: bool)
    | Session(user: UserId, expires: Instant)
    | Refused

  function WithoutToken(rows: map<Code, Row>, token: Token): map<Code, Row> {
    map c | c in rows && rows[c].token != Some(token) :: rows[c]
  }

  /** `row` is what a lookup by token returns: any one of the rows that carry it. */
  ghost predicate LooksUp(s: Auth, token: Token, row: Option<Code>) {
    match row
    case Some(c) => s.Holds(c, token)
    case None => !s.Live(token)
  }

  /** Codes and tokens come fresh from the random source and the signer, user ids from the users
      table; lookups return rows that are there. */
  ghost predicate Enabled(s: Auth, op: Op) {
    match op
    case Join(user) => user > 0 && user !in s.users
    case Issue(_, code, token, _) => code !in s.drawn && token !in s.signed && token != ""
    case Start(code, _) => code !in s.drawn
    case Bind(_, token, _, row, _) => LooksUp(s, token, row)
    case Resolve(token, row, _) => LooksUp(s, token, row)
    case _ => true
  }

  function Step(s: Auth, op: Op): (Auth, Answer)
    requires op.Bind? && op.row.Some? ==> op.row.value in s.rows
    requires op.Resolve? && op.row.Some? ==> op.row.value in s.rows
  {
    match op
    case Join(user) => (s.(users := s.users + {user}), Done)
    case Issue(user, code, token, expires) =>
      var t := s.(signed := s.signed[token := Claim(user, expires)], drawn := s.drawn[code := SessionCode]);
      if user !in s.users then (t, Refused)
      else (t.(rows := s.rows[code := Row(Some(token), Some(user), expires)]), Done)
    case Start(code, now) =>
      (s.(rows := s.rows[code := Row(None, None, now + DEVICE_AUTH_TTL)],
          drawn := s.drawn[code := DeviceCode]), Done)
    case Poll(code, now) =>
      if code == "" || code !in s.rows then (s, NotFound)
      else if s.rows[code].expires < now then (s.(rows := s.rows - {code}), Expired)
      else if s.rows[code].token.None? || s.rows[code].token == Some("") then (s, Pending)
      else (s.(rows := s.rows - {code}), Delivered(s.rows[code].token.value))
    case Bind(code, token, user, row, now) =>
      if code == "" || token == "" || user == 0 || row.None? then (s, Bound(false))
      else if code in s.rows && s.rows[code].token.None? && s.rows[code].expires > now && user in s.users then
        (s.(rows := s.rows[code := Row(Some(token), Some(user), s.rows[row.value].expires)]), Bound(true))
      else (s, Bound(false))
    case Logout(token) =>
      if token == "" then (s, Done) else (s.(rows := WithoutToken(s.rows, token)), Done)
    case Resolve(token, row, now) =>
      if token !in s.signed || !s.signed[token].ValidAt(now) then (s, Refused)
      else if row.None? then (s, NotFound)
      else
        var r := s.rows[row.value];
        if r.user != Some(s.signed[token].user) then (s, Refused)
        else if r.expires < now then (s.(rows := WithoutToken(s.rows, token)), Expired)
        else if s.signed[token].user !in s.users then (s, NotFound)
        else (s, Session(s.signed[token].user, r.expires))
  }

  /** The service over the mutable `users` and `device_sessions` tables. */
  class AuthService {
    var users: set<UserId>
    var rows: map<Code, Row>
    var signed: map<Token, Claim>
    var drawn: map<Code, CodeKind>

    function Snapshot(): Auth reads this { Auth(users, rows, signed, drawn) }

    constructor ()
      ensures Snapshot() == FRESH
    {
      users, rows, signed, drawn := {}, map[], map[], map[];
    }

    method CreateUser(user: UserId)
      requires Enabled(Snapshot(), Join(user))
      modifies this
      ensures Snapshot() == Step(old(Snapshot()), Join(user)).0
    {
      users := users + {user};
    }

    /** Signs first; the row and the lookup of its user are one transaction. */
    method IssueSession(user: UserId, code: Code, token: Token, expires: Instant) returns (answer: Answer)
      requires Enabled(Snapshot(), Issue(user, code, token, expires))
      modifies this
      ensures (Snapshot(), answer) == Step(old(Snapshot()), Issue(user, code, token, expires))
    {
      signed := signed[token := Claim(user, expires)];
      drawn := drawn[code := SessionCode];
      if user !in users {
        return Refused;
      }
      rows := rows[code := Row(Some(token), Some(user), expires)];
      return Done;
    }

    method StartDeviceAuth(code: Code, now: Instant)
      requires Enabled(Snapshot(), Start(code, now))
      modifies this
      ensures Snapshot() == Step(old(Snapshot()), Start(code, now)).0
    {
      drawn := drawn[code := DeviceCode];
      rows := rows[code := Row(None, None, now + DEVICE_AUTH_TTL)];
    }

    method PollDeviceAuth(code: Code, now: Instant) returns (answer: Answer)
      modifies this
      ensures (Snapshot(), answer) == Step(old(Snapshot()), Poll(code, now))
    {
      if code == "" || code !in rows {
        return NotFound;
      }
      var row := rows[code];
      if row.expires < now {
        rows := rows - {code};
        return Expired;
      }
      if row.token.None? || row.token.value == "" {
        return Pending;
      }
      rows := rows - {code};
      return Delivered(row.token.value);
    }

    method FindByToken(token: Token) returns (row: Option<Code>)
      ensures LooksUp(Snapshot(), token, row)
    {
      var todo := rows.Keys;
      while todo != {}
        invariant todo <= rows.Keys
        invariant forall c :: c in rows && Snapshot().Holds(c, token) ==> c in todo
        decreases todo
      {
        var c :| c in todo;
        if rows[c].token == Some(token) {
          return Some(c);
        }
        todo := todo - {c};
      }
      return None;
    }

    /** `found` is the row the lookup by token came back with. */
    method BindDeviceAuth(code: Code, token: Token, user: UserId, now: Instant)
      returns (answer: Answer, ghost found: Option<Code>)
      modifies this
      ensures LooksUp(old(Snapshot()), token, found)
      ensures (Snapshot(), answer) == Step(old(Snapshot()), Bind(code, token, user, found, now))
    {
      var row := FindByToken(token);
      found := row;
      if code == "" || token == "" || user == 0 {
        return Bound(false), found;
      }
      if row.None? {
        return Bound(false), found;
      }
      var session := rows[row.value];
      if code in rows && rows[code].token.None? && rows[code].expires > now && user in users {
        rows := rows[code := Row(Some(token), Some(user), session.expires)];
        return Bound(true), found;
      }
      return Bound(false), found;
    }

    method Logout(token: Token)
      modifies this
      ensures Snapshot() == Step(old(Snapshot()), Op.Logout(token)).0
    {
      if token != "" {
        rows := WithoutToken(rows, token);
      }
    }

    method ResolveSession(token: Token, now: Instant) returns (answer: Answer, ghost found: Option<Code>)
      modifies this
      ensures LooksUp(old(Snapshot()), token, found)
      ensures (Snapshot(), answer) == Step(old(Snapshot()), Resolve(token, found, now))
    {
      var row := FindByToken(token);
      found := row;
      if token !in signed || !signed[token].ValidAt(now) {
        return Refused, found;
      }
      if row.None? {
        return NotFound, found;
      }
      var r := rows[row.value];
      if r.user != Some(signed[token].user) {
        return Refused, found;
      }
      if r.expires < now {
        rows := WithoutToken(rows, token);
        return Expired, found;
      }
      if signed[token].user !in users {
        return NotFound, found;
      }
      return Session(signed[token].user, r.expires), found;
    }
  }

  // ---- whole runs ----------------------------------------------------------------

  ghost predicate Legal(s: Auth, ops: seq<Op>)
    decreases |ops|
  {
    ops != [] ==> Enabled(s, ops[0]) && Legal(Step(s, ops[0]).0, ops[1..])
  }

  ghost function Answers(s: Auth, ops: seq<Op>): (r: seq<Answer>)
    requires Legal(s, ops)
    ensures |r| == |ops|
    decreases |ops|
  {
    if ops == [] then [] else [Step(s, ops[0]).1] + Answers(Step(s, ops[0]).0, ops[1..])
  }

  ghost function Final(s: Auth, ops: seq<Op>): Auth
    requires Legal(s, ops)
    decreases |ops|
  {
    if ops == [] then s else Final(Step(s, ops[0]).0, ops[1..])
  }

  /** Every row's code was drawn and every row's token was signed. */
  ghost predicate Grounded(s: Auth) {
    forall c :: c in s.rows ==>
      c in s.drawn && (s.rows[c].token.Some? ==> s.rows[c].token.value in s.signed && s.rows[c].token.value != "")
  }

  lemma StepKeepsGrounded(s: Auth, op: Op)
    requires Grounded(s) && Enabled(s, op)
    ensures Grounded(Step(s, op).0)
  {
    if op.Bind? && op.row.Some? {
      assert s.rows[op.row.value].token == Some(op.token);
    }
  }

  lemma DeadStaysDead(s: Auth, op: Op, token: Token)
    requires Grounded(s) && Enabled(s, op) && token in s.signed && !s.Live(token)
    ensures var (t, answer) := Step(s, op);
            token in t.signed && !t.Live(token) && answer != Delivered(token)
            && (op.Resolve? && op.token == token ==> !answer.Session?)
  {
    var (t, answer) := Step(s, op);
    forall c | c in t.rows ensures !t.Holds(c, token) {
      assert c in s.rows ==> !s.Holds(c, token);
      if op.Bind? && op.row.Some? {
        assert s.Holds(op.row.value, op.token);
      }
    }
  }

  lemma {:induction false} DeadForever(s: Auth, ops: seq<Op>, token: Token, i: nat)
    requires Grounded(s) && Legal(s, ops) && token in s.signed && !s.Live(token)
    requires i < |ops|
    ensures Answers(s, ops)[i] != Delivered(token)
    ensures ops[i].Resolve? && ops[i].token == token ==> !Answers(s, ops)[i].Session?
    decreases |ops|
  {
    DeadStaysDead(s, ops[0], token);
    StepKeepsGrounded(s, ops[0]);
    if i > 0 {
      DeadForever(Step(s, ops[0]).0, ops[1..], token, i - 1);
    }
  }

  /** Logging out is final: no continuation whatsoever resolves the token again,
      or hands it to a terminal. */
  lemma LogoutIsFinal(s: Auth, token: Token, ops: seq<Op>, i: nat)
    requires Grounded(s) && token in s.signed && token != ""
    requires Legal(Step(s, Logout(token)).0, ops) && i < |ops|
    ensures var answers := Answers(Step(s, Logout(token)).0, ops);
            answers[i] != Delivered(token) && (ops[i].Resolve? && ops[i].token == token ==> !answers[i].Session?)
  {
    hide Step, Legal, Answers, Grounded;
    StepKeepsGrounded(s, Logout(token));
    LogoutKills(s, token);
    DeadForever(Step(s, Logout(token)).0, ops, token, i);
  }

  lemma LogoutKills(s: Auth, token: Token)
    requires token in s.signed && token != ""
    ensures var t := Step(s, Logout(token)).0;
            token in t.signed && !t.Live(token)
  {
  }

  /** How often a run hands a token out for one code. */
  ghost function Deliveries(s: Auth, ops: seq<Op>, code: Code): nat
    requires Legal(s, ops)
    decreases |ops|
  {
    if ops == [] then 0
    else
      var (t, answer) := Step(s, ops[0]);
      (if ops[0].Poll? && ops[0].code == code && answer.Delivered? then 1 else 0) + Deliveries(t, ops[1..], code)
  }

  lemma {:induction false} ConsumedForever(s: Auth, ops: seq<Op>, code: Code)
    requires Legal(s, ops) && code in s.drawn && code !in s.rows
    ensures Deliveries(s, ops, code) == 0
    decreases |ops|
  {
    if ops != [] {
      ConsumedForever(Step(s, ops[0]).0, ops[1..], code);
    }
  }

  /** A code pays out at most once, in every run from every state. */
  lemma {:induction false} DeliveredAtMostOnce(s: Auth, ops: seq<Op>, code: Code)
    requires Grounded(s) && Legal(s, ops)
    ensures Deliveries(s, ops, code) <= 1
    decreases |ops|
  {
    if ops != [] {
      StepKeepsGrounded(s, ops[0]);
      var (t, answer) := Step(s, ops[0]);
      if ops[0].Poll? && ops[0].code == code && answer.Delivered? {
        ConsumedForever(t, ops[1..], code);
      } else {
        DeliveredAtMostOnce(t, ops[1..], code);
      }
    }
  }

  /** The calls that read the clock agree on it. */
  function ClockOf(op: Op, before: Instant): Instant {
    if op.Start? || op.Poll? || op.Bind? || op.Resolve? then op.now else before
  }

  ghost predicate Monotone(from: Instant, ops: seq<Op>)
    decreases |ops|
  {
    ops != [] ==> from <= ClockOf(ops[0], from) && Monotone(ClockOf(ops[0], from), ops[1..])
  }

  /** The code was drawn and can no longer bind at `now`. */
  ghost predicate Spent(s: Auth, code: Code, now: Instant) {
    code in s.drawn && (code in s.rows ==> s.rows[code].token.Some? || s.rows[code].expires <= now)
  }

  /** An expired, consumed or already bound code never binds (again), whatever happens next. */
  lemma {:induction false} SpentNeverBinds(s: Auth, from: Instant, ops: seq<Op>, code: Code, i: nat)
    requires Legal(s, ops) && Monotone(from, ops) && Spent(s, code, from) && i < |ops|
    ensures ops[i].Bind? && ops[i].code == code ==> Answers(s, ops)[i] == Bound(false)
    decreases |ops|
  {
    if i > 0 {
      SpentNeverBinds(Step(s, ops[0]).0, ClockOf(ops[0], from), ops[1..], code, i - 1);
    }
  }

  // ---- the companion invariant ------------------------------------------------------

  /** Terminals poll the code they were given, and a browser approves with its own session. */
  ghost predicate WellBehaved(s: Auth, op: Op) {
    match op
    case Poll(code, _) => code in s.drawn ==> s.drawn[code] == DeviceCode
    case Bind(_, token, user, _, _) => token in s.signed ==> user == s.signed[token].user
    case _ => true
  }

  ghost predicate Agrees(s: Auth, c: Code) {
    c in s.rows && (s.rows[c].token.Some? ==>
      var t := s.rows[c].token.value;
      t in s.signed && s.signed[t].user in s.users
      && s.rows[c] == Row(Some(t), Some(s.signed[t].user), s.signed[t].expires))
  }

  predicate IsSession(s: Auth, c: Code) { c in s.drawn && s.drawn[c] == SessionCode }

  ghost predicate IssuedFor(s: Auth, c: Code, token: Token) { s.Holds(c, token) && IsSession(s, c) && Agrees(s, c) }

  ghost predicate HasSession(s: Auth, token: Token) {
    exists d :: IssuedFor(s, d, token)
  }

  /** A session row carries its token from the start, and no other session row carries it. */
  ghost predicate OneSession(s: Auth) {
    && (forall c :: c in s.rows && IsSession(s, c) ==> s.rows[c].token.Some?)
    && (forall c, d ::
          c in s.rows && d in s.rows && IsSession(s, c) && IsSession(s, d) && s.rows[c].token == s.rows[d].token
          ==> c == d)
  }

  /** Every row that carries a token says what the signer said of a known user, and every bound
      device code has the session it was approved with beside it. */
  ghost predicate Companions(s: Auth) {
    && Grounded(s) && OneSession(s)
    && (forall c :: c in s.rows ==> Agrees(s, c))
    && (forall c :: c in s.rows && s.rows[c].token.Some? ==> HasSession(s, s.rows[c].token.value))
  }

  lemma StepKeepsAgreement(s: Auth, op: Op, c: Code)
    requires Companions(s) && Enabled(s, op) && WellBehaved(s, op)
    requires c in Step(s, op).0.rows
    ensures Agrees(Step(s, op).0, c)
  {
    if op.Bind? && op.row.Some? {
      assert Agrees(s, op.row.value);
    }
    assert c in s.rows ==> Agrees(s, c);
  }

  lemma StepKeepsIssued(s: Auth, op: Op, d: Code, token: Token)
    requires Companions(s) && Enabled(s, op) && WellBehaved(s, op)
    requires IssuedFor(s, d, token) && Step(s, op).0.Live(token)
    ensures IssuedFor(Step(s, op).0, d, token)
  {
    var t := Step(s, op).0;
    var c :| c in t.rows && t.Holds(c, token);
    assert d in t.rows;
    StepKeepsAgreement(s, op, d);
  }

  lemma StepKeepsSession(s: Auth, op: Op, c: Code)
    requires Companions(s) && Enabled(s, op) && WellBehaved(s, op)
    requires var t := Step(s, op).0; c in t.rows && t.rows[c].token.Some?
    ensures var t := Step(s, op).0; HasSession(t, t.rows[c].token.value)
  {
    var t := Step(s, op).0;
    var token := t.rows[c].token.value;
    StepKeepsAgreement(s, op, c);
    if op.Issue? && op.code == c && op.user in s.users {
      assert IssuedFor(t, c, token);
    } else {
      assert t.Holds(c, token);
      var source := if op.Bind? && op.row.Some? && op.code == c && s.rows[c].token.None? then op.row.value else c;
      assert s.rows[source].token == Some(token);
      var d :| IssuedFor(s, d, token);
      StepKeepsIssued(s, op, d, token);
    }
  }

  lemma StepKeepsOneSession(s: Auth, op: Op)
    requires Grounded(s) && OneSession(s) && Enabled(s, op)
    ensures OneSession(Step(s, op).0)
  {
  }

  lemma StepKeepsCompanions(s: Auth, op: Op)
    requires Companions(s) && Enabled(s, op) && WellBehaved(s, op)
    ensures Companions(Step(s, op).0)
  {
    StepKeepsGrounded(s, op);
    StepKeepsOneSession(s, op);
    var t := Step(s, op).0;
    forall c | c in t.rows ensures Agrees(t, c) {
      StepKeepsAgreement(s, op, c);
    }
    forall c | c in t.rows && t.rows[c].token.Some? ensures HasSession(t, t.rows[c].token.value) {
      StepKeepsSession(s, op, c);
    }
  }

  /** Binding with someone else's user id is exactly what breaks the agreement. */
  lemma BindAgreesIff(s: Auth, op: Op)
    requires Companions(s) && op.Bind? && Enabled(s, op) && Step(s, op).1 == Bound(true)
    ensures Companions(Step(s, op).0) <==> op.user == s.signed[op.token].user
  {
    assert s.Holds(op.row.value, op.token) && Agrees(s, op.row.value);
    if op.user == s.signed[op.token].user {
      StepKeepsCompanions(s, op);
    } else {
      assert !Agrees(Step(s, op).0, op.code);
    }
  }

  /** What a poll that takes a row away leaves of the sessions of the other rows. */
  lemma PollTakes(s: Auth, op: Op, c: Code)
    requires Companions(s) && op.Poll? && (Step(s, op).1.Delivered? || Step(s, op).1 == Expired)
             && IsSession(s, op.code)
    requires c in Step(s, op).0.rows && s.rows[c].token.Some?
    ensures HasSession(Step(s, op).0, s.rows[c].token.value) <==> s.rows[c].token != s.rows[op.code].token
  {
    var t, token := Step(s, op).0, s.rows[c].token.value;
    if d :| IssuedFor(t, d, token) {
      assert s.Holds(d, token) && d != op.code;
    }
    if Some(token) != s.rows[op.code].token {
      var d :| IssuedFor(s, d, token);
      assert IssuedFor(t, d, token);
    }
  }

  /** A poll that takes a row away leaves every other row its session if and only if the row is
      that of a device code, or no other row carries its token. */
  lemma PollAgreesIff(s: Auth, op: Op)
    requires Companions(s) && op.Poll? && (Step(s, op).1.Delivered? || Step(s, op).1 == Expired)
    ensures Companions(Step(s, op).0)
            <==> (!IsSession(s, op.code)
                  || forall c :: c in s.rows && c != op.code ==> s.rows[c].token != s.rows[op.code].token)
  {
    var t := Step(s, op).0;
    if !IsSession(s, op.code) {
      StepKeepsCompanions(s, op);
    } else {
      StepKeepsGrounded(s, op);
      StepKeepsOneSession(s, op);
      forall c | c in t.rows ensures Agrees(t, c) {
        assert Agrees(s, c);
      }
      forall c | c in t.rows && t.rows[c].token.Some?
        ensures HasSession(t, t.rows[c].token.value) <==> s.rows[c].token != s.rows[op.code].token
      {
        PollTakes(s, op, c);
      }
    }
  }

  // ---- failing inputs ----------------------------------------------------------------

  /** User 1 has signed in, and a terminal waits for its code to be approved. */
  const WAITING: Auth :=
    Auth({1, 2}, map["a" := Row(Some("t"), Some(1), 900 * SECOND), "b" := Row(None, None, 600 * SECOND)],
                              map["t" := Claim(1, 900 * SECOND)], map["a" := SessionCode, "b" := DeviceCode])

  const SIGN_IN: seq<Op> := [Join(1), Join(2), Issue(1, "a", "t", 900 * SECOND), Start("b", 0)]

  lemma Prepend(s: Auth, op: Op, ops: seq<Op>)
    requires Enabled(s, op) && Legal(Step(s, op).0, ops)
    ensures Legal(s, [op] + ops) && Final(s, [op] + ops) == Final(Step(s, op).0, ops)
  {
    hide Enabled, Step;
    assert ([op] + ops)[1..] == ops;
  }

  lemma NothingMore(s: Auth)
    ensures Legal(s, []) && Final(s, []) == s
  {
  }

  lemma WaitingIsReached()
    ensures Legal(FRESH, SIGN_IN) && Final(FRESH, SIGN_IN) == WAITING
  {
    hide Legal, Final;
    var s1 := Step(FRESH, SIGN_IN[0]).0;
    var s2 := Step(s1, SIGN_IN[1]).0;
    var s3 := Step(s2, SIGN_IN[2]).0;
    assert Step(s3, SIGN_IN[3]).0 == WAITING;
    NothingMore(WAITING);
    Prepend(s3, SIGN_IN[3], []);
    Prepend(s2, SIGN_IN[2], [SIGN_IN[3]] + []);
    Prepend(s1, SIGN_IN[1], [SIGN_IN[2]] + ([SIGN_IN[3]] + []));
    Prepend(FRESH, SIGN_IN[0], [SIGN_IN[1]] + ([SIGN_IN[2]] + ([SIGN_IN[3]] + [])));
    assert SIGN_IN == [SIGN_IN[0]] + ([SIGN_IN[1]] + ([SIGN_IN[2]] + ([SIGN_IN[3]] + [])));
  }

  lemma WaitingIsSound()
    ensures Companions(WAITING)
  {
    assert IssuedFor(WAITING, "a", "t");
  }

  /** Approved with the id of user 2, the code's row names a user for whom nothing was signed. */
  lemma BindCanDisagree()
    ensures var op := Bind("b", "t", 2, Some("a"), 1);
            Enabled(WAITING, op) && Step(WAITING, op).1 == Bound(true) && !Companions(Step(WAITING, op).0)
  {
    WaitingIsSound();
    assert WAITING.Holds("a", "t");
    BindAgreesIff(WAITING, Bind("b", "t", 2, Some("a"), 1));
  }

  /** Approved by its owner, it outlives the session whose own code is then polled. */
  lemma PollCanStrand()
    ensures var s := Step(WAITING, Bind("b", "t", 1, Some("a"), 1)).0;
            Companions(s) && Step(s, Poll("a", 2)).1 == Delivered("t") && !Companions(Step(s, Poll("a", 2)).0)
  {
    WaitingIsSound();
    assert WAITING.Holds("a", "t");
    var op := Bind("b", "t", 1, Some("a"), 1);
    StepKeepsCompanions(WAITING, op);
    var s := Step(WAITING, op).0;
    assert s.rows["b"].token == s.rows["a"].token;
    PollAgreesIff(s, Poll("a", 2));
  }

  ghost predicate BehavedRun(s: Auth, ops: seq<Op>)
    requires Legal(s, ops)
    decreases |ops|
  {
    ops != [] ==> WellBehaved(s, ops[0]) && BehavedRun(Step(s, ops[0]).0, ops[1..])
  }

  lemma {:induction false} RunKeepsCompanions(s: Auth, ops: seq<Op>)
    requires Companions(s) && Legal(s, ops) && BehavedRun(s, ops)
    ensures Companions(Final(s, ops))
    decreases |ops|
  {
    if ops != [] {
      StepKeepsCompanions(s, ops[0]);
      RunKeepsCompanions(Step(s, ops[0]).0, ops[1..]);
    }
  }

  /** A token that a terminal has just been given signs its owner in for exactly as
      long as the signature is valid, whichever row the lookup returns. */
  lemma DeliveredTokenSignsIn(s: Auth, code: Code, now: Instant, row: Option<Code>, later: Instant)
    requires Companions(s) && WellBehaved(s, Poll(code, now)) && Step(s, Poll(code, now)).1.Delivered?
    requires LooksUp(Step(s, Poll(code, now)).0, Step(s, Poll(code, now)).1.token, row)
    ensures var (t, answer) := Step(s, Poll(code, now));
            && answer.token in t.signed
            && var claim := t.signed[answer.token];
               Step(t, Resolve(answer.token, row, later)).1
               == if claim.ValidAt(later) then Session(claim.user, claim.expires) else Refused
  {
    var (t, answer) := Step(s, Poll(code, now));
    assert s.rows[code].token == Some(answer.token);
    var d :| IssuedFor(s, d, answer.token);
    assert d != code && t.Holds(d, answer.token);
    assert t.Live(answer.token);
    assert s.Holds(row.value, answer.token) && Agrees(s, row.value);
  }

  /** End to end: the same after every well-behaved run of a fresh service. */
  lemma SignInWorks(ops: seq<Op>, code: Code, now: Instant, row: Option<Code>, later: Instant)
    requires Legal(FRESH, ops) && BehavedRun(FRESH, ops)
    requires var s := Final(FRESH, ops);
             && WellBehaved(s, Poll(code, now)) && Step(s, Poll(code, now)).1.Delivered?
             && LooksUp(Step(s, Poll(code, now)).0, Step(s, Poll(code, now)).1.token, row)
    ensures var (t, answer) := Step(Final(FRESH, ops), Poll(code, now));
            && answer.token in t.signed
            && var claim := t.signed[answer.token];
               Step(t, Resolve(answer.token, row, later)).1
               == if claim.ValidAt(later) then Session(claim.user, claim.expires) else Refused
  {
    RunKeepsCompanions(FRESH, ops);
    DeliveredTokenSignsIn(Final(FRESH, ops), code, now, row, later);
  }
}
