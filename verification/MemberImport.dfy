/** The bulk import of members (member_import/processor.go, emails.go): rows, counters, batches and e-mails. */
module MemberImport {
  import opened Collections
  import opened Wrappers

  const BATCH_SIZE: nat := 100

  datatype Input = Input(name: string, email: string, document: string)

  datatype Member = Member(name: string, document: string)

  /**
   * users maps an e-mail to its user, members (user, tenant) to the row in UsersOnTenants, deliveries (user, delivery)
   * to the tenant of the row in MemberOnDelivery; tokens lists the users of the MagicToken rows.
   */
  datatype Db = Db(users: map<string, nat>, nextUser: nat, members: map<(nat, nat), Member>,
                   deliveries: map<(nat, nat), nat>, tokens: seq<nat>)

  /** The request, and the text functions whose details do not matter. */
  datatype Env = Env(tenant: nat, deliveries: seq<nat>, lower: string -> string, valid: string -> bool,
                     variants: string -> seq<string>)

  /** The statements of one row, each of which may fail. */
  datatype Call = FindUser | CreateUser | LinkTenant | CountDeliveries | RefreshToken | InsertToken | UpdateMember |
                  InsertDeliveries

  /** Which call fails, if one does, and which member a lookup by document returns. */
  datatype Chance = Chance(failing: Option<Call>, hit: Option<nat>)

  const LUCKY: Chance := Chance(None, None)

  datatype Status = Created | Updated | AlreadyHad | Skipped | Error

  /** isNewUser is set as soon as the row counts as created; hasToken when its MagicToken is stored. */
  datatype Outcome = Outcome(status: Status, isNewUser: bool, hasToken: bool)

  // ---------- The tables ----------

  predicate Fails(c: Chance, call: Call) {
    c.failing == Some(call)
  }

  datatype Found = Nobody | Somebody(user: nat, member: Option<Member>)

  /** Looks a user up by document, then by e-mail. */
  function Find(db: Db, env: Env, input: Input, c: Chance): Found {
    var email := env.lower(input.email);
    if input.document != "" && c.hit.Some? && (c.hit.value, env.tenant) in db.members &&
       db.members[(c.hit.value, env.tenant)].document in env.variants(input.document)
    then Somebody(c.hit.value, Some(db.members[(c.hit.value, env.tenant)]))
    else if email !in db.users then Nobody
    else
      var u := db.users[email];
      Somebody(u, if (u, env.tenant) in db.members then Some(db.members[(u, env.tenant)]) else None)
  }

  function AddUser(db: Db, email: string): Db {
    db.(users := db.users[email := db.nextUser], nextUser := db.nextUser + 1)
  }

  function Link(db: Db, env: Env, u: nat, input: Input): Db {
    if (u, env.tenant) in db.members then db
    else db.(members := db.members[(u, env.tenant) := Member(input.name, input.document)])
  }

  /** The rows that COUNT(*) counts. */
  function Owned(db: Db, env: Env, u: nat): set<nat> {
    set d | d in env.deliveries && (u, d) in db.deliveries && db.deliveries[(u, d)] == env.tenant
  }

  predicate HasAll(db: Db, env: Env, u: nat) {
    |Owned(db, env, u)| >= |env.deliveries|
  }

  function AddToken(db: Db, u: nat): Db {
    db.(tokens := db.tokens + [u])
  }

  predicate NeedsUpdate(input: Input, m: Member) {
    (input.document != "" && m.document == "") || (input.name != "" && m.name != input.name)
  }

  function UpdatedMember(input: Input, m: Member): Member {
    Member(if input.name != "" then input.name else m.name, if input.document != "" then input.document else m.document)
  }

  function Update(db: Db, env: Env, u: nat, input: Input): Db {
    if (u, env.tenant) !in db.members then db
    else db.(members := db.members[(u, env.tenant) := UpdatedMember(input, db.members[(u, env.tenant)])])
  }

  /** INSERT ... ON CONFLICT DO NOTHING of the deliveries. */
  function WithDeliveries(rows: map<(nat, nat), nat>, u: nat, deliveries: seq<nat>, tenant: nat): map<(nat, nat), nat> {
    if deliveries == [] then rows
    else
      var before := WithDeliveries(rows, u, deliveries[..|deliveries| - 1], tenant);
      var d := deliveries[|deliveries| - 1];
      if (u, d) in before then before else before[(u, d) := tenant]
  }

  function AddDeliveries(db: Db, env: Env, u: nat): Db {
    db.(deliveries := WithDeliveries(db.deliveries, u, env.deliveries, env.tenant))
  }

  // ---------- One row ----------

  predicate IsBlank(input: Input) {
    input.name == "" || input.email == ""
  }

  predicate IsValid(env: Env, input: Input) {
    !IsBlank(input) && env.valid(env.lower(input.email))
  }

  /** What happens to a row once its user is known; member is the user's row in this tenant before the import. */
  function Deliver(db: Db, env: Env, input: Input, u: nat, member: Option<Member>, c: Chance): (Db, Outcome) {
    var isNew, asked := member.None?, env.deliveries != [];
    if asked && !isNew && Fails(c, CountDeliveries) then (db, Outcome(Error, isNew, false))
    else
      var hasAll := asked && !isNew && HasAll(db, env, u);
      if !hasAll && !isNew && Fails(c, RefreshToken) then (db, Outcome(Error, isNew, false))
      else if !hasAll && Fails(c, InsertToken) then (db, Outcome(Error, isNew, false))
      else
        var db1 := if hasAll then db else AddToken(db, u);
        var update := !isNew && NeedsUpdate(input, member.value);
        if update && Fails(c, UpdateMember) then (db1, Outcome(Error, isNew, !hasAll))
        else
          var db2 := if update then Update(db1, env, u, input) else db1;
          if asked && !hasAll && Fails(c, InsertDeliveries) then (db2, Outcome(Error, isNew, !hasAll))
          else
            var db3 := if asked && !hasAll then AddDeliveries(db2, env, u) else db2;
            (db3, Outcome(if isNew then Created else if hasAll then AlreadyHad else Updated, isNew, !hasAll))
  }

  function Row(db: Db, env: Env, input: Input, c: Chance): (Db, Outcome) {
    if IsBlank(input) then (db, Outcome(Skipped, false, false))
    else if !IsValid(env, input) || Fails(c, FindUser) then (db, Outcome(Error, false, false))
    else
      match Find(db, env, input, c)
      case Nobody =>
        if Fails(c, CreateUser) then (db, Outcome(Error, false, false))
        else
          var db1 := AddUser(db, env.lower(input.email));
          if Fails(c, LinkTenant) then (db1, Outcome(Error, true, false))
          else Deliver(Link(db1, env, db.nextUser, input), env, input, db.nextUser, None, c)
      case Somebody(u, None) =>
        if Fails(c, LinkTenant) then (db, Outcome(Error, false, false))
        else Deliver(Link(db, env, u, input), env, input, u, None, c)
      case Somebody(u, Some(m)) => Deliver(db, env, input, u, Some(m), c)
  }

  /** All rows, one after the other. */
  function Rows(db: Db, env: Env, inputs: seq<Input>, chances: seq<Chance>): (r: (Db, seq<Outcome>))
    requires |chances| == |inputs|
    ensures |r.1| == |inputs|
  {
    if inputs == [] then (db, [])
    else
      var n := |inputs| - 1;
      var before := Rows(db, env, inputs[..n], chances[..n]);
      var last := Row(before.0, env, inputs[n], chances[n]);
      (last.0, before.1 + [last.1])
  }

  /** The row gets an e-mail. */
  predicate Mails(o: Outcome) {
    !o.status.Error? && !o.status.Skipped? && o.hasToken
  }

  /** What a status says about the row, whatever fails. */
  lemma {:induction false} RowOutcome(db: Db, env: Env, input: Input, c: Chance)
    ensures var o := Row(db, env, input, c).1;
      && (o.status.Skipped? <==> IsBlank(input))
      && (o.status.Created? ==> o.isNewUser)
      && (o.status.Updated? || o.status.AlreadyHad? || o.status.Skipped? ==> !o.isNewUser)
      && (Mails(o) <==> o.status.Created? || o.status.Updated?)
      && (!IsBlank(input) && !IsValid(env, input) ==> o.status.Error?)
      && (IsValid(env, input) && c.failing.None? ==> !o.status.Error?)
  {
  }

  // ---------- What a row writes ----------

  /** The lookup by document returns a member of the tenant with one of the variants of the document. */
  predicate ByDocument(db: Db, env: Env, input: Input, c: Chance) {
    && input.document != "" && c.hit.Some? && (c.hit.value, env.tenant) in db.members
    && db.members[(c.hit.value, env.tenant)].document in env.variants(input.document)
  }

  /** The user of the row's e-mail: the one there is, or the one that the row creates. */
  function UserOf(db: Db, env: Env, input: Input): nat {
    var email := env.lower(input.email);
    if email in db.users then db.users[email] else db.nextUser
  }

  /** The user that a row is about. */
  function SubjectOf(db: Db, env: Env, input: Input, c: Chance): nat {
    if ByDocument(db, env, input, c) then c.hit.value else UserOf(db, env, input)
  }

  /** That user is found, and as a member of the tenant. */
  predicate IsMember(db: Db, env: Env, input: Input, c: Chance) {
    && (ByDocument(db, env, input, c) || env.lower(input.email) in db.users)
    && (SubjectOf(db, env, input, c), env.tenant) in db.members
  }

  /** ... who has every delivery asked for, of which there are some. */
  predicate IsServed(db: Db, env: Env, input: Input, c: Chance) {
    IsMember(db, env, input, c) && env.deliveries != [] && HasAll(db, env, SubjectOf(db, env, input, c))
  }

  /** The member's name or document would be refreshed. */
  predicate IsStale(db: Db, env: Env, input: Input, c: Chance)
    requires IsMember(db, env, input, c)
  {
    var m := db.members[(SubjectOf(db, env, input, c), env.tenant)];
    (input.document != "" && m.document == "") || (input.name != "" && m.name != input.name)
  }

  /** A valid row gets to make this call, unless one before it fails. */
  predicate Makes(db: Db, env: Env, input: Input, c: Chance, call: Call) {
    match call
    case FindUser => true
    case CreateUser => !ByDocument(db, env, input, c) && env.lower(input.email) !in db.users
    case LinkTenant => !IsMember(db, env, input, c)
    case CountDeliveries => env.deliveries != [] && IsMember(db, env, input, c)
    case RefreshToken => IsMember(db, env, input, c) && !IsServed(db, env, input, c)
    case InsertToken => !IsServed(db, env, input, c)
    case UpdateMember => IsMember(db, env, input, c) && IsStale(db, env, input, c)
    case InsertDeliveries => env.deliveries != [] && !IsServed(db, env, input, c)
  }

  lemma {:induction false} DeliverStatus(db: Db, env: Env, input: Input, u: nat, member: Option<Member>, c: Chance)
    ensures var o := Deliver(db, env, input, u, member, c).1;
      var served := env.deliveries != [] && member.Some? && HasAll(db, env, u);
      && !o.status.Skipped?
      && (o.status.Error? <==>
            match c.failing
            case Some(CountDeliveries) => env.deliveries != [] && member.Some?
            case Some(RefreshToken) => member.Some? && !served
            case Some(InsertToken) => !served
            case Some(UpdateMember) => member.Some? && NeedsUpdate(input, member.value)
            case Some(InsertDeliveries) => env.deliveries != [] && !served
            case _ => false)
      && (o.status.Created? ==> member.None?) && (o.status.AlreadyHad? ==> served)
      && (o.status.Updated? ==> member.Some? && !served)
  {
  }

  /** Exactly when a row ends in which status. */
  lemma {:induction false} RowStatus(db: Db, env: Env, input: Input, c: Chance)
    ensures var o := Row(db, env, input, c).1;
      && (o.status.Skipped? <==> input.name == "" || input.email == "")
      && (o.status.Error? <==>
            input.name != "" && input.email != "" &&
            (!env.valid(env.lower(input.email)) || (c.failing.Some? && Makes(db, env, input, c, c.failing.value))))
      && (o.status.Created? ==> !IsMember(db, env, input, c))
      && (o.status.AlreadyHad? ==> IsServed(db, env, input, c))
      && (o.status.Updated? ==> IsMember(db, env, input, c) && !IsServed(db, env, input, c))
  {
    if IsValid(env, input) && !Fails(c, FindUser) {
      var email := env.lower(input.email);
      match Find(db, env, input, c) {
        case Nobody =>
          DeliverStatus(Link(AddUser(db, email), env, db.nextUser, input), env, input, db.nextUser, None, c);
        case Somebody(u, None) => DeliverStatus(Link(db, env, u, input), env, input, u, None, c);
        case Somebody(u, Some(m)) => DeliverStatus(db, env, input, u, Some(m), c);
      }
    }
  }

  /** The row gets to its deliveries, and there at most the call that inserts them fails. */
  predicate GetsThrough(db: Db, env: Env, input: Input, c: Chance) {
    IsValid(env, input) && (!Row(db, env, input, c).1.status.Error? || c.failing == Some(InsertDeliveries))
  }

  lemma {:induction false} DeliverTokens(db: Db, env: Env, input: Input, u: nat, member: Option<Member>, c: Chance)
    requires !Deliver(db, env, input, u, member, c).1.status.Error? || c.failing == Some(InsertDeliveries)
    ensures var (db', o) := Deliver(db, env, input, u, member, c);
      var served := env.deliveries != [] && member.Some? && HasAll(db, env, u);
      && db'.users == db.users && db'.nextUser == db.nextUser
      && db'.tokens == (if served then db.tokens else db.tokens + [u])
      && (o.hasToken <==> !served) && (o.isNewUser <==> member.None?)
  {
  }

  /** Whom such a row creates, and whose token it stores: its own user's, unless that one is served already. */
  lemma {:induction false} RowWrites(db: Db, env: Env, input: Input, c: Chance)
    requires GetsThrough(db, env, input, c)
    ensures var (db', o) := Row(db, env, input, c);
      var email, u, byDocument := env.lower(input.email), SubjectOf(db, env, input, c), ByDocument(db, env, input, c);
      && db'.users == (if byDocument then db.users else db.users[email := u])
      && db'.nextUser == (if byDocument || email in db.users then db.nextUser else db.nextUser + 1)
      && db'.tokens == (if IsServed(db, env, input, c) then db.tokens else db.tokens + [u])
      && (o.hasToken <==> !IsServed(db, env, input, c)) && (o.isNewUser <==> !IsMember(db, env, input, c))
  {
    var email := env.lower(input.email);
    match Find(db, env, input, c) {
      case Nobody =>
        DeliverTokens(Link(AddUser(db, email), env, db.nextUser, input), env, input, db.nextUser, None, c);
      case Somebody(u, None) => DeliverTokens(Link(db, env, u, input), env, input, u, None, c);
      case Somebody(u, Some(m)) => DeliverTokens(db, env, input, u, Some(m), c);
    }
  }

  lemma {:induction false} DeliverMembers(db: Db, env: Env, input: Input, u: nat, member: Option<Member>, c: Chance)
    requires (u, env.tenant) in db.members && (member.Some? ==> member.value == db.members[(u, env.tenant)])
    requires !Deliver(db, env, input, u, member, c).1.status.Error? || c.failing == Some(InsertDeliveries)
    ensures var m := (u, env.tenant);
      Deliver(db, env, input, u, member, c).0.members ==
        if member.Some? && NeedsUpdate(input, member.value)
        then db.members[m := UpdatedMember(input, db.members[m])] else db.members
  {
  }

  /** Its user is a member then: a new one as the list gives it, a known one refreshed where it is stale. */
  lemma {:induction false} RowMembers(db: Db, env: Env, input: Input, c: Chance)
    requires GetsThrough(db, env, input, c)
    ensures var db', m := Row(db, env, input, c).0, (SubjectOf(db, env, input, c), env.tenant);
      && m in db'.members && db'.members == db.members[m := db'.members[m]]
      && (m !in db.members ==> db'.members[m] == Member(input.name, input.document))
      && (IsMember(db, env, input, c) ==>
            db'.members[m] ==
              if (input.document != "" && db.members[m].document == "") || input.name != db.members[m].name
              then Member(input.name, if input.document != "" then input.document else db.members[m].document)
              else db.members[m])
  {
    var email := env.lower(input.email);
    match Find(db, env, input, c) {
      case Nobody =>
        DeliverMembers(Link(AddUser(db, email), env, db.nextUser, input), env, input, db.nextUser, None, c);
      case Somebody(u, None) => DeliverMembers(Link(db, env, u, input), env, input, u, None, c);
      case Somebody(u, Some(was)) => DeliverMembers(db, env, input, u, Some(was), c);
    }
  }

  lemma {:induction false} DeliverInserts(db: Db, env: Env, input: Input, u: nat, member: Option<Member>, c: Chance)
    requires !Deliver(db, env, input, u, member, c).1.status.Error?
    ensures Deliver(db, env, input, u, member, c).0.deliveries ==
            if env.deliveries != [] && member.Some? && HasAll(db, env, u) then db.deliveries
            else WithDeliveries(db.deliveries, u, env.deliveries, env.tenant)
  {
  }

  lemma {:induction false} RowInserts(db: Db, env: Env, input: Input, c: Chance)
    requires IsValid(env, input) && !Row(db, env, input, c).1.status.Error?
    ensures Row(db, env, input, c).0.deliveries ==
            if IsServed(db, env, input, c) then db.deliveries
            else WithDeliveries(db.deliveries, SubjectOf(db, env, input, c), env.deliveries, env.tenant)
  {
    var email := env.lower(input.email);
    match Find(db, env, input, c) {
      case Nobody =>
        DeliverInserts(Link(AddUser(db, email), env, db.nextUser, input), env, input, db.nextUser, None, c);
      case Somebody(u, None) => DeliverInserts(Link(db, env, u, input), env, input, u, None, c);
      case Somebody(u, Some(m)) => DeliverInserts(db, env, input, u, Some(m), c);
    }
  }

  /** ... and the deliveries: each one asked for that the user has through no tenant yet, through this one. */
  lemma {:induction false} RowDeliveries(db: Db, env: Env, input: Input, c: Chance)
    requires IsValid(env, input) && !Row(db, env, input, c).1.status.Error?
    ensures var db', u := Row(db, env, input, c).0, SubjectOf(db, env, input, c);
      && (forall x :: x in db.deliveries ==> x in db'.deliveries && db'.deliveries[x] == db.deliveries[x])
      && (forall x :: x in db'.deliveries && x !in db.deliveries ==>
            x.0 == u && x.1 in env.deliveries && db'.deliveries[x] == env.tenant)
      && (forall d :: d in env.deliveries ==> (u, d) in db'.deliveries)
  {
    RowInserts(db, env, input, c);
    if IsServed(db, env, input, c) {
      ServedHasEvery(db, env, SubjectOf(db, env, input, c));
    } else {
      DeliveriesAdded(db.deliveries, SubjectOf(db, env, input, c), env.deliveries, env.tenant);
    }
  }

  lemma {:induction false} ServedHasEvery(db: Db, env: Env, u: nat)
    requires HasAll(db, env, u)
    ensures forall d :: d in env.deliveries ==> (u, d) in db.deliveries
  {
    if Distinct(env.deliveries) {
      HasAllMeans(db, env, u);
    } else {
      RepeatedDeliveryNeverComplete(db, env, u);
    }
  }

  /** How far a row gets whose user is known, when one of its calls fails. */
  lemma {:induction false} DeliverFails(db: Db, env: Env, input: Input, u: nat, member: Option<Member>, c: Chance)
    requires Deliver(db, env, input, u, member, c).1.status.Error?
    ensures var (db', o) := Deliver(db, env, input, u, member, c);
      var served := env.deliveries != [] && member.Some? && HasAll(db, env, u);
      && db'.deliveries == db.deliveries && o.isNewUser == member.None? && c.failing.Some?
      && (o.hasToken <==> c.failing.value.InsertDeliveries? || (c.failing.value.UpdateMember? && !served))
      && (!c.failing.value.InsertDeliveries? ==> db' == if o.hasToken then db.(tokens := db.tokens + [u]) else db)
  {
  }

  /** What a row has written when one of its calls fails: what the calls before that one write, and nothing else. */
  lemma {:induction false} FailedRowLeaves(db: Db, env: Env, input: Input, c: Chance)
    requires Row(db, env, input, c).1.status.Error? && IsValid(env, input)
    ensures var (db', o) := Row(db, env, input, c);
      var email, u := env.lower(input.email), SubjectOf(db, env, input, c);
      var known, member := ByDocument(db, env, input, c) || email in db.users, IsMember(db, env, input, c);
      var created := if known then db else db.(users := db.users[email := u], nextUser := u + 1);
      && db'.deliveries == db.deliveries && !Mails(o)
      && match c.failing.value
         case FindUser => db' == db && o == Outcome(Error, false, false)
         case CreateUser => db' == db && o == Outcome(Error, false, false)
         case LinkTenant => db' == created && o == Outcome(Error, !known, false)
         case UpdateMember =>
           if IsServed(db, env, input, c) then db' == db && o == Outcome(Error, false, false)
           else db' == db.(tokens := db.tokens + [u]) && o == Outcome(Error, false, true)
         case InsertDeliveries => o == Outcome(Error, !member, true)
         case _ => o == Outcome(Error, !member, false) && db' == if member then db else Link(created, env, u, input)
  {
    var email := env.lower(input.email);
    if !Fails(c, FindUser) && !Fails(c, CreateUser) && !Fails(c, LinkTenant) {
      match Find(db, env, input, c) {
        case Nobody =>
          DeliverFails(Link(AddUser(db, email), env, db.nextUser, input), env, input, db.nextUser, None, c);
        case Somebody(u, None) => DeliverFails(Link(db, env, u, input), env, input, u, None, c);
        case Somebody(u, Some(m)) => DeliverFails(db, env, input, u, Some(m), c);
      }
    }
  }

  // ---------- Tallies ----------

  datatype Tally = NewUsers | UpdatedRows | AlreadyHadRows | SkippedRows | ErrorRows | CreatedRows | NewButError |
                   MailLogin | MailDelivery

  predicate Counts(o: Outcome, t: Tally) {
    match t
    case NewUsers => o.isNewUser
    case UpdatedRows => o.status.Updated?
    case AlreadyHadRows => o.status.AlreadyHad?
    case SkippedRows => o.status.Skipped?
    case ErrorRows => o.status.Error?
    case CreatedRows => o.status.Created?
    case NewButError => o.status.Error? && o.isNewUser
    case MailLogin => Mails(o) && o.isNewUser
    case MailDelivery => Mails(o) && !o.isNewUser
  }

  function Count(outcomes: seq<Outcome>, t: Tally): nat {
    if outcomes == [] then 0
    else Count(outcomes[..|outcomes| - 1], t) + if Counts(outcomes[|outcomes| - 1], t) then 1 else 0
  }

  lemma {:induction false} CountConcat(a: seq<Outcome>, b: seq<Outcome>, t: Tally)
    ensures Count(a + b, t) == Count(a, t) + Count(b, t)
  {
    if b == [] {
      assert a + b == a;
    } else {
      var n := |b| - 1;
      assert (a + b)[..|a| + n] == a + b[..n];
      CountConcat(a, b[..n], t);
    }
  }

  /** An outcome that some row can have. */
  predicate Possible(o: Outcome) {
    && (o.status.Created? ==> o.isNewUser)
    && (o.status.Updated? || o.status.AlreadyHad? || o.status.Skipped? ==> !o.isNewUser)
    && (Mails(o) <==> o.status.Created? || o.status.Updated?)
  }

  lemma {:induction false} RowsArePossible(db: Db, env: Env, inputs: seq<Input>, chances: seq<Chance>)
    requires |chances| == |inputs|
    ensures forall k :: 0 <= k < |inputs| ==> Possible(Rows(db, env, inputs, chances).1[k])
  {
    if inputs != [] {
      var n := |inputs| - 1;
      RowsArePossible(db, env, inputs[..n], chances[..n]);
      RowOutcome(Rows(db, env, inputs[..n], chances[..n]).0, env, inputs[n], chances[n]);
    }
  }

  /**
   * The five counters add up to the rows, plus the rows that failed after they had been counted as created; and the
   * rows that get an e-mail are those created or updated.
   */
  lemma {:induction false} CountersAddUp(outcomes: seq<Outcome>)
    requires forall k :: 0 <= k < |outcomes| ==> Possible(outcomes[k])
    ensures Count(outcomes, NewUsers) + Count(outcomes, UpdatedRows) + Count(outcomes, AlreadyHadRows)
            + Count(outcomes, SkippedRows) + Count(outcomes, ErrorRows) == |outcomes| + Count(outcomes, NewButError)
    ensures Count(outcomes, MailLogin) == Count(outcomes, CreatedRows)
    ensures Count(outcomes, MailDelivery) == Count(outcomes, UpdatedRows)
  {
    if outcomes != [] {
      CountersAddUp(outcomes[..|outcomes| - 1]);
    }
  }

  // ---------- Importing the same list again ----------

  /** The e-mail has a user, that user is in the tenant and has every requested delivery. */
  predicate Settled(db: Db, env: Env, email: string) {
    email in db.users && (db.users[email], env.tenant) in db.members && HasAll(db, env, db.users[email])
  }

  /** Rows are only ever added, and those of users and deliveries never change. */
  predicate Grows(db: Db, db': Db) {
    && (forall e :: e in db.users ==> e in db'.users && db'.users[e] == db.users[e])
    && (forall m :: m in db.members ==> m in db'.members)
    && (forall x :: x in db.deliveries ==> x in db'.deliveries && db'.deliveries[x] == db.deliveries[x])
  }

  /** ... new users get new ids, and new memberships are this tenant's. */
  predicate Evolves(db: Db, db': Db, env: Env) {
    && Grows(db, db') && db.nextUser <= db'.nextUser
    && (forall e :: e in db'.users && e !in db.users ==> db'.users[e] >= db.nextUser)
    && (forall x :: x in db'.deliveries && x !in db.deliveries ==> db'.deliveries[x] == env.tenant)
  }

  lemma {:induction false} DeliveriesAdded(rows: map<(nat, nat), nat>, u: nat, deliveries: seq<nat>, tenant: nat)
    ensures var after := WithDeliveries(rows, u, deliveries, tenant);
      && (forall x :: x in rows ==> x in after && after[x] == rows[x])
      && (forall x :: x in after && x !in rows ==> x.0 == u && x.1 in deliveries && after[x] == tenant)
      && (forall d :: d in deliveries ==> (u, d) in after)
  {
    if deliveries != [] {
      var n := |deliveries| - 1;
      DeliveriesAdded(rows, u, deliveries[..n], tenant);
      assert deliveries == deliveries[..n] + [deliveries[n]];
    }
  }

  /** The database after the row's token and its member are written, but not its deliveries. */
  function Touched(db: Db, env: Env, u: nat, input: Input, token: bool, update: bool): Db {
    var db1 := if token then AddToken(db, u) else db;
    if update then Update(db1, env, u, input) else db1
  }

  lemma {:induction false} TouchedEvolves(db: Db, env: Env, u: nat, input: Input, token: bool, update: bool)
    ensures var db' := Touched(db, env, u, input, token, update);
      && Evolves(db, db', env) && Evolves(db, AddDeliveries(db', env, u), env)
      && db'.users == db.users && db'.deliveries == db.deliveries && db'.nextUser == db.nextUser
  {
    DeliveriesAdded(db.deliveries, u, env.deliveries, env.tenant);
  }

  lemma {:induction false} DeliverEvolves(db: Db, env: Env, input: Input, u: nat, member: Option<Member>, c: Chance)
    ensures var db' := Deliver(db, env, input, u, member, c).0;
      Evolves(db, db', env) && db'.users == db.users && db'.nextUser == db.nextUser
  {
    var db' := Deliver(db, env, input, u, member, c).0;
    var token := !(env.deliveries != [] && member.Some? && HasAll(db, env, u));
    var update := member.Some? && NeedsUpdate(input, member.value);
    var db1, db2 := Touched(db, env, u, input, token, false), Touched(db, env, u, input, token, update);
    assert db' == db || db' == db1 || db' == db2 || db' == AddDeliveries(db2, env, u);
    TouchedEvolves(db, env, u, input, token, false);
    TouchedEvolves(db, env, u, input, token, update);
  }

  lemma {:induction false} EvolvesOn(db: Db, db1: Db, db2: Db, env: Env)
    requires Evolves(db, db1, env) && Evolves(db1, db2, env)
    ensures Evolves(db, db2, env)
  {
  }

  lemma {:induction false} RowEvolves(db: Db, env: Env, input: Input, c: Chance)
    ensures Evolves(db, Row(db, env, input, c).0, env)
  {
    if IsValid(env, input) && !Fails(c, FindUser) {
      match Find(db, env, input, c) {
        case Nobody =>
          var db1 := AddUser(db, env.lower(input.email));
          DeliverEvolves(Link(db1, env, db.nextUser, input), env, input, db.nextUser, None, c);
        case Somebody(u, None) => DeliverEvolves(Link(db, env, u, input), env, input, u, None, c);
        case Somebody(u, Some(m)) => DeliverEvolves(db, env, input, u, Some(m), c);
      }
    }
  }

  /** A list that names a delivery twice is never complete, whatever its user has. */
  lemma {:induction false} RepeatedDeliveryNeverComplete(db: Db, env: Env, u: nat)
    requires !Distinct(env.deliveries)
    ensures !HasAll(db, env, u)
  {
    ElementsSize(env.deliveries);
    SubsetSize(Owned(db, env, u), Elements(env.deliveries));
  }

  /** Exactly when the count says that a user has all of a duplicate-free list: each one, and through this tenant. */
  lemma {:induction false} HasAllMeans(db: Db, env: Env, u: nat)
    requires Distinct(env.deliveries)
    ensures HasAll(db, env, u) <==>
            forall d :: d in env.deliveries ==> (u, d) in db.deliveries && db.deliveries[(u, d)] == env.tenant
  {
    ElementsSize(env.deliveries);
    var owned, all := Owned(db, env, u), Elements(env.deliveries);
    SubsetSize(owned, all);
    assert HasAll(db, env, u) <==> owned == all;
    if owned == all {
      forall d | d in env.deliveries
        ensures (u, d) in db.deliveries && db.deliveries[(u, d)] == env.tenant
      {
        assert d in all;
      }
    }
    if forall d :: d in env.deliveries ==> (u, d) in db.deliveries && db.deliveries[(u, d)] == env.tenant {
      assert owned == all;
    }
  }

  predicate Plain(input: Input) {
    input.document == ""
  }

  /** User u has none of the requested deliveries through another tenant. */
  predicate OwnOnly(db: Db, env: Env, u: nat) {
    forall d :: d in env.deliveries && (u, d) in db.deliveries ==> db.deliveries[(u, d)] == env.tenant
  }

  /** User u has a membership of every requested delivery, through whatever tenant. */
  predicate HasEvery(db: Db, env: Env, u: nat) {
    forall d :: d in env.deliveries ==> (u, d) in db.deliveries
  }

  lemma {:induction false} CompleteIfOwn(db: Db, env: Env, u: nat)
    requires HasEvery(db, env, u)
    ensures HasAll(db, env, u) <==> Distinct(env.deliveries) && OwnOnly(db, env, u)
  {
    if Distinct(env.deliveries) {
      HasAllMeans(db, env, u);
    } else {
      RepeatedDeliveryNeverComplete(db, env, u);
    }
  }

  /** The e-mail has a user, that user is in the tenant and has a membership of every delivery. */
  predicate Known(db: Db, env: Env, email: string) {
    email in db.users && (db.users[email], env.tenant) in db.members && HasEvery(db, env, db.users[email])
  }

  lemma {:induction false} DeliverKnows(db: Db, env: Env, input: Input, u: nat, member: Option<Member>)
    requires (u, env.tenant) in db.members
    ensures HasEvery(Deliver(db, env, input, u, member, LUCKY).0, env, u)
  {
    DeliveriesAdded(db.deliveries, u, env.deliveries, env.tenant);
    if HasAll(db, env, u) {
      if Distinct(env.deliveries) {
        HasAllMeans(db, env, u);
      } else {
        RepeatedDeliveryNeverComplete(db, env, u);
      }
    }
  }

  /** A row that goes well leaves its user in the tenant and with every delivery. */
  lemma {:induction false} RowKnows(db: Db, env: Env, input: Input)
    requires IsValid(env, input) && Plain(input)
    ensures Known(Row(db, env, input, LUCKY).0, env, env.lower(input.email))
  {
    var email := env.lower(input.email);
    match Find(db, env, input, LUCKY) {
      case Nobody =>
        var db1 := Link(AddUser(db, email), env, db.nextUser, input);
        DeliverKnows(db1, env, input, db.nextUser, None);
        DeliverEvolves(db1, env, input, db.nextUser, None, LUCKY);
      case Somebody(u, None) =>
        var db1 := Link(db, env, u, input);
        DeliverKnows(db1, env, input, u, None);
        DeliverEvolves(db1, env, input, u, None, LUCKY);
      case Somebody(u, Some(m)) =>
        DeliverKnows(db, env, input, u, Some(m));
        DeliverEvolves(db, env, input, u, Some(m), LUCKY);
    }
  }

  function Lucky(n: nat): (c: seq<Chance>)
    ensures |c| == n && forall k :: 0 <= k < n ==> c[k] == LUCKY
  {
    seq(n, _ => LUCKY)
  }

  function Import(db: Db, env: Env, inputs: seq<Input>): (r: (Db, seq<Outcome>))
    ensures |r.1| == |inputs|
  {
    Rows(db, env, inputs, Lucky(|inputs|))
  }

  lemma {:induction false} ImportLast(db: Db, env: Env, inputs: seq<Input>)
    requires inputs != []
    ensures var n := |inputs| - 1;
      var before := Import(db, env, inputs[..n]);
      var last := Row(before.0, env, inputs[n], LUCKY);
      Import(db, env, inputs) == (last.0, before.1 + [last.1])
  {
    assert Lucky(|inputs|)[..|inputs| - 1] == Lucky(|inputs| - 1);
  }

  lemma {:induction false} ImportKnows(db: Db, env: Env, inputs: seq<Input>)
    requires forall k :: 0 <= k < |inputs| ==> Plain(inputs[k])
    ensures Evolves(db, Import(db, env, inputs).0, env)
    ensures forall k :: 0 <= k < |inputs| && IsValid(env, inputs[k]) ==>
      Known(Import(db, env, inputs).0, env, env.lower(inputs[k].email))
  {
    if inputs != [] {
      var n := |inputs| - 1;
      ImportLast(db, env, inputs);
      ImportKnows(db, env, inputs[..n]);
      var before := Import(db, env, inputs[..n]).0;
      var after := Import(db, env, inputs).0;
      RowEvolves(before, env, inputs[n], LUCKY);
      EvolvesOn(db, before, after, env);
      forall k | 0 <= k < |inputs| && IsValid(env, inputs[k])
        ensures Known(after, env, env.lower(inputs[k].email))
      {
        if k == n {
          RowKnows(before, env, inputs[n]);
        } else {
          assert inputs[..n][k] == inputs[k];
          assert Known(before, env, env.lower(inputs[k].email));
        }
      }
    }
  }

  lemma {:induction false} ImportAt(db: Db, env: Env, inputs: seq<Input>, k: nat)
    requires k < |inputs|
    ensures Import(db, env, inputs).1[k] == Row(Import(db, env, inputs[..k]).0, env, inputs[k], LUCKY).1
  {
    var n := |inputs| - 1;
    ImportLast(db, env, inputs);
    if k < n {
      ImportAt(db, env, inputs[..n], k);
      assert inputs[..n][..k] == inputs[..k];
    }
  }

  // ---------- ... sends what the first one could not settle ----------

  /** Ids in memberships are those of users there are. */
  predicate FreshMemberships(db: Db) {
    forall x :: x in db.deliveries ==> x.0 < db.nextUser
  }

  /** An import settles this e-mail: the list of deliveries is a set, and no other tenant's membership is in the way. */
  predicate Settles(db: Db, env: Env, email: string) {
    env.deliveries != [] && Distinct(env.deliveries) && (email in db.users ==> OwnOnly(db, env, db.users[email]))
  }

  /** Whether other tenants' memberships are in the way does not change as the database evolves. */
  lemma {:induction false} OwnOnlyStays(db: Db, db': Db, env: Env, email: string)
    requires Evolves(db, db', env) && FreshMemberships(db) && email in db'.users
    ensures OwnOnly(db', env, db'.users[email]) <==> (email in db.users ==> OwnOnly(db, env, db.users[email]))
  {
  }

  lemma {:induction false} KnownRow(db: Db, env: Env, input: Input)
    requires IsValid(env, input) && Plain(input) && Known(db, env, env.lower(input.email))
    ensures var asked := env.deliveries != [] && HasAll(db, env, db.users[env.lower(input.email)]);
      Row(db, env, input, LUCKY).1 == if asked then Outcome(AlreadyHad, false, false) else Outcome(Updated, false, true)
  {
  }

  /** Row k of a second import of the list sends an e-mail exactly if it is valid and could not be settled. */
  lemma {:induction false} SecondImportMails(db: Db, env: Env, inputs: seq<Input>, k: nat)
    requires FreshMemberships(db) && k < |inputs| && forall j :: 0 <= j < |inputs| ==> Plain(inputs[j])
    ensures var o := Import(Import(db, env, inputs).0, env, inputs).1[k];
      && (Mails(o) <==> IsValid(env, inputs[k]) && !Settles(db, env, env.lower(inputs[k].email)))
      && (IsValid(env, inputs[k]) ==> (o.status.AlreadyHad? <==> Settles(db, env, env.lower(inputs[k].email))))
  {
    var once, email := Import(db, env, inputs).0, env.lower(inputs[k].email);
    ImportAt(once, env, inputs, k);
    var now := Import(once, env, inputs[..k]).0;
    RowOutcome(now, env, inputs[k], LUCKY);
    if IsValid(env, inputs[k]) {
      ImportKnows(db, env, inputs);
      ImportKnows(once, env, inputs[..k]);
      EvolvesOn(db, once, now, env);
      assert Known(once, env, email) && Known(now, env, email);
      KnownRow(now, env, inputs[k]);
      CompleteIfOwn(now, env, now.users[email]);
      OwnOnlyStays(db, now, env, email);
    }
  }

  /** The import can be repeated: it names nobody, or everybody it names is settled by it. */
  predicate Repeatable(db: Db, env: Env, inputs: seq<Input>) {
    forall k :: 0 <= k < |inputs| && IsValid(env, inputs[k]) ==> Settles(db, env, env.lower(inputs[k].email))
  }

  // ---------- ... changes nothing ----------

  /** The name that the last valid row for user u gives. */
  function LastName(users: map<string, nat>, env: Env, inputs: seq<Input>, u: nat): Option<string> {
    if inputs == [] then None
    else
      var input := inputs[|inputs| - 1];
      if IsValid(env, input) && env.lower(input.email) in users && users[env.lower(input.email)] == u
      then Some(input.name)
      else LastName(users, env, inputs[..|inputs| - 1], u)
  }

  lemma {:induction false} LastNameStays(users: map<string, nat>, users': map<string, nat>, env: Env,
                                         inputs: seq<Input>, u: nat)
    requires forall k :: 0 <= k < |inputs| && IsValid(env, inputs[k]) ==> env.lower(inputs[k].email) in users
    requires forall e :: e in users ==> e in users' && users'[e] == users[e]
    ensures LastName(users', env, inputs, u) == LastName(users, env, inputs, u)
  {
    if inputs != [] {
      var n := |inputs| - 1;
      assert forall k :: 0 <= k < n ==> inputs[..n][k] == inputs[k];
      LastNameStays(users, users', env, inputs[..n], u);
    }
  }

  /** Everybody the list names has the name of the last row that names them. */
  ghost predicate Named(db: Db, env: Env, inputs: seq<Input>) {
    forall u: nat :: LastName(db.users, env, inputs, u).Some? ==>
      (u, env.tenant) in db.members && db.members[(u, env.tenant)].name == LastName(db.users, env, inputs, u).value
  }

  /** User ids are generated anew. */
  predicate FreshIds(db: Db) {
    (forall e :: e in db.users ==> db.users[e] < db.nextUser) && (forall m :: m in db.members ==> m.0 < db.nextUser)
  }

  /** db' differs from db in the row of user u, and there in the name and the document, at most. */
  predicate OnlyMember(db: Db, db': Db, env: Env, u: nat) {
    && (forall m :: m in db'.members ==> m in db.members || m == (u, env.tenant))
    && (forall m :: m in db.members && m != (u, env.tenant) ==> m in db'.members && db'.members[m] == db.members[m])
  }

  lemma {:induction false} DeliverNames(db: Db, env: Env, input: Input, u: nat, member: Option<Member>)
    requires Plain(input) && IsValid(env, input) && (u, env.tenant) in db.members
    requires db.members[(u, env.tenant)] == if member.Some? then member.value else Member(input.name, input.document)
    ensures var db' := Deliver(db, env, input, u, member, LUCKY).0;
      && OnlyMember(db, db', env, u) && db'.users == db.users && db'.nextUser == db.nextUser
      && (u, env.tenant) in db'.members
      && db'.members[(u, env.tenant)] == Member(input.name, db.members[(u, env.tenant)].document)
  {
  }

  /** User u is in the tenant under this name, and all other members are as in db. */
  predicate Names(db: Db, db': Db, env: Env, input: Input, u: nat) {
    && FreshIds(db') && OnlyMember(db, db', env, u)
    && env.lower(input.email) in db'.users && db'.users[env.lower(input.email)] == u
    && (u, env.tenant) in db'.members && db'.members[(u, env.tenant)].name == input.name
  }

  /** From the database db1 in which the user of the row is there and in the tenant. */
  lemma {:induction false} LinkedNames(db: Db, db1: Db, env: Env, input: Input, u: nat, member: Option<Member>)
    requires Plain(input) && IsValid(env, input) && FreshIds(db1) && OnlyMember(db, db1, env, u)
    requires env.lower(input.email) in db1.users && db1.users[env.lower(input.email)] == u
    requires (u, env.tenant) in db1.members
    requires db1.members[(u, env.tenant)] == if member.Some? then member.value else Member(input.name, input.document)
    ensures Names(db, Deliver(db1, env, input, u, member, LUCKY).0, env, input, u)
  {
    DeliverNames(db1, env, input, u, member);
  }

  lemma {:induction false} NewUserNames(db: Db, env: Env, input: Input)
    requires FreshIds(db) && env.lower(input.email) !in db.users
    ensures var db1 := Link(AddUser(db, env.lower(input.email)), env, db.nextUser, input);
      FreshIds(db1) && OnlyMember(db, db1, env, db.nextUser)
  {
  }

  /** A row names its own user and leaves all other members as they are. */
  lemma {:induction false} RowNames(db: Db, env: Env, input: Input)
    requires Plain(input) && IsValid(env, input) && FreshIds(db)
    ensures Names(db, Row(db, env, input, LUCKY).0, env, input, UserOf(db, env, input))
  {
    var u, email := UserOf(db, env, input), env.lower(input.email);
    match Find(db, env, input, LUCKY) {
      case Nobody =>
        NewUserNames(db, env, input);
        LinkedNames(db, Link(AddUser(db, email), env, u, input), env, input, u, None);
      case Somebody(_, None) => LinkedNames(db, Link(db, env, u, input), env, input, u, None);
      case Somebody(_, Some(m)) => LinkedNames(db, db, env, input, u, Some(m));
    }
  }

  lemma {:induction false} InvalidRowChangesNothing(db: Db, env: Env, input: Input, c: Chance)
    requires !IsValid(env, input)
    ensures Row(db, env, input, c).0 == db
  {
  }

  ghost predicate NamesList(db: Db, env: Env, inputs: seq<Input>) {
    && FreshIds(db) && Named(db, env, inputs)
    && forall k :: 0 <= k < |inputs| && IsValid(env, inputs[k]) ==> env.lower(inputs[k].email) in db.users
  }

  lemma {:induction false} NamedStep(before: Db, env: Env, inputs: seq<Input>, u: nat)
    requires inputs != [] && NamesList(before, env, inputs[..|inputs| - 1])
    requires Plain(inputs[|inputs| - 1]) && IsValid(env, inputs[|inputs| - 1])
    ensures var after := Row(before, env, inputs[|inputs| - 1], LUCKY).0;
      LastName(after.users, env, inputs, u).Some? ==>
        (u, env.tenant) in after.members &&
        after.members[(u, env.tenant)].name == LastName(after.users, env, inputs, u).value
  {
    var n := |inputs| - 1;
    var after := Row(before, env, inputs[n], LUCKY).0;
    RowNames(before, env, inputs[n]);
    RowEvolves(before, env, inputs[n], LUCKY);
    LastNameStays(before.users, after.users, env, inputs[..n], u);
    if u != UserOf(before, env, inputs[n]) {
      assert LastName(after.users, env, inputs, u) == LastName(before.users, env, inputs[..n], u);
    }
  }

  lemma {:induction false} KnownStep(before: Db, env: Env, inputs: seq<Input>, k: nat)
    requires inputs != [] && NamesList(before, env, inputs[..|inputs| - 1])
    requires Plain(inputs[|inputs| - 1]) && IsValid(env, inputs[|inputs| - 1])
    requires k < |inputs| && IsValid(env, inputs[k])
    ensures env.lower(inputs[k].email) in Row(before, env, inputs[|inputs| - 1], LUCKY).0.users
  {
    var n := |inputs| - 1;
    RowNames(before, env, inputs[n]);
    RowEvolves(before, env, inputs[n], LUCKY);
    if k < n {
      assert inputs[..n][k] == inputs[k];
    }
  }

  lemma {:induction false} ValidRowNames(before: Db, env: Env, inputs: seq<Input>)
    requires inputs != [] && NamesList(before, env, inputs[..|inputs| - 1])
    requires Plain(inputs[|inputs| - 1]) && IsValid(env, inputs[|inputs| - 1])
    ensures NamesList(Row(before, env, inputs[|inputs| - 1], LUCKY).0, env, inputs)
  {
    forall u: nat {
      NamedStep(before, env, inputs, u);
    }
    forall k | 0 <= k < |inputs| && IsValid(env, inputs[k])
      ensures env.lower(inputs[k].email) in Row(before, env, inputs[|inputs| - 1], LUCKY).0.users
    {
      KnownStep(before, env, inputs, k);
    }
    RowNames(before, env, inputs[|inputs| - 1]);
  }

  lemma {:induction false} InvalidRowNames(db: Db, env: Env, inputs: seq<Input>)
    requires inputs != [] && NamesList(db, env, inputs[..|inputs| - 1]) && !IsValid(env, inputs[|inputs| - 1])
    ensures NamesList(db, env, inputs)
  {
  }

  lemma {:induction false} ImportNames(db: Db, env: Env, inputs: seq<Input>)
    requires FreshIds(db) && forall k :: 0 <= k < |inputs| ==> Plain(inputs[k])
    ensures NamesList(Import(db, env, inputs).0, env, inputs)
  {
    if inputs != [] {
      var n := |inputs| - 1;
      ImportLast(db, env, inputs);
      ImportNames(db, env, inputs[..n]);
      var before := Import(db, env, inputs[..n]).0;
      if IsValid(env, inputs[n]) {
        ValidRowNames(before, env, inputs);
      } else {
        InvalidRowChangesNothing(before, env, inputs[n], LUCKY);
        InvalidRowNames(before, env, inputs);
      }
    }
  }

  /** What a settled row does: it is already_had, and at most the member's name changes. */
  lemma {:induction false} SettledRow(db: Db, env: Env, input: Input)
    requires IsValid(env, input) && Plain(input) && env.deliveries != [] && Settled(db, env, env.lower(input.email))
    ensures var u := db.users[env.lower(input.email)];
      var m := (u, env.tenant);
      Row(db, env, input, LUCKY) ==
        (db.(members := db.members[m := Member(input.name, db.members[m].document)]), Outcome(AlreadyHad, false, false))
  {
    var m := (db.users[env.lower(input.email)], env.tenant);
    if db.members[m].name == input.name {
      assert db.members[m := Member(input.name, db.members[m].document)] == db.members;
    }
  }

  /** db' is db with the names that the list gives. */
  ghost predicate Renamed(db: Db, db': Db, env: Env, inputs: seq<Input>) {
    && db' == db.(members := db'.members) && db'.members.Keys == db.members.Keys
    && forall m :: m in db.members ==>
         db'.members[m] ==
           var last := LastName(db.users, env, inputs, m.0);
           if m.1 == env.tenant && last.Some? then Member(last.value, db.members[m].document) else db.members[m]
  }

  predicate Quiet(o: Outcome, env: Env, input: Input) {
    && (IsValid(env, input) ==> o == Outcome(AlreadyHad, false, false))
    && (IsBlank(input) ==> o.status.Skipped?) && (!IsBlank(input) && !IsValid(env, input) ==> o.status.Error?)
    && !Mails(o)
  }

  /** A list all of whose rows are settled: nobody gets an e-mail, and only names change. */
  lemma {:induction false} SettledImport(db: Db, env: Env, inputs: seq<Input>)
    requires env.deliveries != [] && forall k :: 0 <= k < |inputs| ==> Plain(inputs[k])
    requires forall k :: 0 <= k < |inputs| && IsValid(env, inputs[k]) ==> Settled(db, env, env.lower(inputs[k].email))
    ensures var r := Import(db, env, inputs);
      && Renamed(db, r.0, env, inputs)
      && forall k :: 0 <= k < |inputs| ==> Quiet(r.1[k], env, inputs[k])
  {
    if inputs != [] {
      var n := |inputs| - 1;
      ImportLast(db, env, inputs);
      assert forall k :: 0 <= k < n ==> inputs[..n][k] == inputs[k];
      SettledImport(db, env, inputs[..n]);
      var before := Import(db, env, inputs[..n]).0;
      if IsValid(env, inputs[n]) {
        assert Settled(db, env, env.lower(inputs[n].email));
        var u := db.users[env.lower(inputs[n].email)];
        assert Owned(before, env, u) == Owned(db, env, u);
        SettledRow(before, env, inputs[n]);
      } else {
        InvalidRowChangesNothing(before, env, inputs[n], LUCKY);
      }
    }
  }

  lemma {:induction false} InvalidImport(db: Db, env: Env, inputs: seq<Input>)
    requires forall k :: 0 <= k < |inputs| ==> !IsValid(env, inputs[k])
    ensures Import(db, env, inputs).0 == db
    ensures forall k :: 0 <= k < |inputs| ==> Quiet(Import(db, env, inputs).1[k], env, inputs[k])
  {
    if inputs != [] {
      var n := |inputs| - 1;
      ImportLast(db, env, inputs);
      assert forall k :: 0 <= k < n ==> inputs[..n][k] == inputs[k];
      InvalidImport(db, env, inputs[..n]);
      InvalidRowChangesNothing(db, env, inputs[n], LUCKY);
      RowOutcome(db, env, inputs[n], LUCKY);
    }
  }

  lemma {:induction false} MailCountOne(o: Outcome)
    ensures MailCount([o]) == if Mails(o) then 1 else 0
  {
    assert [o][..|[o]| - 1] == [];
    assert Count([], MailLogin) == Count([], MailDelivery) == 0;
  }

  /** Without failures a row stores a token exactly if it sends an e-mail, and it is that of the e-mail's user. */
  lemma {:induction false} RowToken(db: Db, env: Env, input: Input)
    ensures var (db', o) := Row(db, env, input, LUCKY);
      if Mails(o) then
        env.lower(input.email) in db'.users && db'.tokens == db.tokens + [db'.users[env.lower(input.email)]]
      else db'.tokens == db.tokens
  {
    RowOutcome(db, env, input, LUCKY);
    RowStatus(db, env, input, LUCKY);
    if IsValid(env, input) {
      RowWrites(db, env, input, LUCKY);
    }
  }

  /** The token of row k stands behind those of the rows before it. */
  predicate OwnToken(db: Db, db': Db, env: Env, inputs: seq<Input>, outcomes: seq<Outcome>, k: nat)
    requires k < |inputs| == |outcomes|
  {
    var at, email := |db.tokens| + MailCount(outcomes[..k]), env.lower(inputs[k].email);
    at < |db'.tokens| && email in db'.users && db'.tokens[at] == db'.users[email]
  }

  lemma {:induction false} TokensNext(db: Db, env: Env, inputs: seq<Input>, k: nat)
    requires inputs != [] && k < |inputs| && Mails(Import(db, env, inputs).1[k])
    requires var (before, outcomes) := Import(db, env, inputs[..|inputs| - 1]);
      && |before.tokens| == |db.tokens| + MailCount(outcomes)
      && (k < |inputs| - 1 ==> OwnToken(db, before, env, inputs[..|inputs| - 1], outcomes, k))
    ensures OwnToken(db, Import(db, env, inputs).0, env, inputs, Import(db, env, inputs).1, k)
  {
    var n := |inputs| - 1;
    ImportLast(db, env, inputs);
    var before, after := Import(db, env, inputs[..n]), Import(db, env, inputs);
    RowToken(before.0, env, inputs[n]);
    RowEvolves(before.0, env, inputs[n], LUCKY);
    assert after.1[..k] == before.1[..k];
    if k == n {
      assert before.1[..k] == before.1;
    }
  }

  lemma {:induction false} TokenCount(db: Db, env: Env, inputs: seq<Input>)
    requires inputs != []
    ensures var (before, now) := (Import(db, env, inputs[..|inputs| - 1]), Import(db, env, inputs));
      && before.0.tokens <= now.0.tokens
      && |now.0.tokens| - |before.0.tokens| == MailCount(now.1) - MailCount(before.1)
  {
    var n := |inputs| - 1;
    ImportLast(db, env, inputs);
    var before := Import(db, env, inputs[..n]);
    var last := Row(before.0, env, inputs[n], LUCKY).1;
    RowToken(before.0, env, inputs[n]);
    MailCountOne(last);
    MailCountConcat(before.1, [last]);
  }

  /**
   * Without failures an import stores as many tokens as it sends e-mails, in the order of the rows, and each is that
   * of the user of its row's e-mail.
   */
  lemma {:induction false} ImportTokens(db: Db, env: Env, inputs: seq<Input>)
    ensures var (db', outcomes) := Import(db, env, inputs);
      && db.tokens <= db'.tokens && |db'.tokens| == |db.tokens| + MailCount(outcomes)
      && forall k :: 0 <= k < |inputs| && Mails(outcomes[k]) ==> OwnToken(db, db', env, inputs, outcomes, k)
  {
    if inputs != [] {
      var n := |inputs| - 1;
      ImportTokens(db, env, inputs[..n]);
      var outcomes := Import(db, env, inputs).1;
      forall k | 0 <= k < |inputs| && Mails(outcomes[k])
        ensures OwnToken(db, Import(db, env, inputs).0, env, inputs, outcomes, k)
      {
        ImportLast(db, env, inputs);
        TokensNext(db, env, inputs, k);
      }
      TokenCount(db, env, inputs);
    }
  }

  lemma {:induction false} SomeMail(outcomes: seq<Outcome>, k: nat)
    requires k < |outcomes| && Mails(outcomes[k])
    ensures MailCount(outcomes) > 0
  {
    var n := |outcomes| - 1;
    if k < n {
      SomeMail(outcomes[..n], k);
    }
  }

  /** An import without deliveries, of a list with one row into an empty database, sends the same e-mail every time. */
  lemma {:induction false} MailsEveryTime(env: Env, input: Input)
    requires env.deliveries == [] && IsValid(env, input) && Plain(input)
    ensures var once := Import(Db(map[], 0, map[], map[], []), env, [input]).0;
      MailCount(Import(once, env, [input]).1) > 0
  {
    var db := Db(map[], 0, map[], map[], []);
    SecondImportMails(db, env, [input], 0);
    SomeMail(Import(Import(db, env, [input]).0, env, [input]).1, 0);
  }

  lemma {:induction false} RepeatedQuietly(db: Db, env: Env, inputs: seq<Input>)
    requires FreshIds(db) && FreshMemberships(db) && forall k :: 0 <= k < |inputs| ==> Plain(inputs[k])
    requires Repeatable(db, env, inputs) && env.deliveries != []
    ensures var once := Import(db, env, inputs).0;
      var twice := Import(once, env, inputs);
      twice.0 == once && forall k :: 0 <= k < |inputs| ==> Quiet(twice.1[k], env, inputs[k])
  {
    var once := Import(db, env, inputs).0;
    ImportKnows(db, env, inputs);
    forall k | 0 <= k < |inputs| && IsValid(env, inputs[k])
      ensures Settled(once, env, env.lower(inputs[k].email))
    {
      var email := env.lower(inputs[k].email);
      assert Known(once, env, email);
      OwnOnlyStays(db, once, env, email);
      CompleteIfOwn(once, env, once.users[email]);
    }
    ImportNames(db, env, inputs);
    SettledImport(once, env, inputs);
    var twice := Import(once, env, inputs).0;
    assert twice.members == once.members;
  }

  /**
   * A second import of a list leaves every table as it is, marks every valid row already_had and sends nothing
   * exactly if it names nobody, or the deliveries are a non-empty set and nobody it names has one of them through
   * another tenant. For lists of any length, with repeated e-mails, and whatever the database held before.
   */
  lemma {:induction false} ImportIsIdempotent(db: Db, env: Env, inputs: seq<Input>)
    requires FreshIds(db) && FreshMemberships(db) && forall k :: 0 <= k < |inputs| ==> Plain(inputs[k])
    ensures var once := Import(db, env, inputs).0;
      var twice := Import(once, env, inputs);
      && (twice.0 == once <==> Repeatable(db, env, inputs))
      && ((forall k :: 0 <= k < |inputs| ==> Quiet(twice.1[k], env, inputs[k])) <==> Repeatable(db, env, inputs))
      && (MailCount(twice.1) == 0 <==> Repeatable(db, env, inputs))
  {
    var once := Import(db, env, inputs).0;
    var twice := Import(once, env, inputs);
    ImportTokens(once, env, inputs);
    if Repeatable(db, env, inputs) {
      if env.deliveries != [] {
        RepeatedQuietly(db, env, inputs);
      } else {
        InvalidImport(once, env, inputs);
      }
    } else {
      var k :| 0 <= k < |inputs| && IsValid(env, inputs[k]) && !Settles(db, env, env.lower(inputs[k].email));
      SecondImportMails(db, env, inputs, k);
      SomeMail(twice.1, k);
    }
  }

  // ---------- The import itself ----------

  datatype MailKind = Login | Delivery

  /** A row as processBatch leaves it and the e-mail phase completes it. */
  datatype RowState = RowState(rowIndex: nat, input: Input, outcome: Outcome, mail: Option<MailKind>, sent: bool)

  /** What the e-mail phase of one batch meets. */
  datatype Mailing = Mailing(hasPublicRoot: bool, loginAccepted: bool, deliveryAccepted: bool)

  class ImportJob {
    var db: Db
    var createdUsers: nat
    var updatedUsers: nat
    var alreadyHadAll: nat
    var skippedRows: nat
    var errorRows: nat
    var loginEmailsSent: nat
    var deliveryEmailsSent: nat
    var emailsFailed: nat

    constructor (db: Db)
      ensures this.db == db
      ensures createdUsers == updatedUsers == alreadyHadAll == skippedRows == errorRows == 0
      ensures loginEmailsSent == deliveryEmailsSent == emailsFailed == 0
    {
      this.db := db;
      createdUsers, updatedUsers, alreadyHadAll, skippedRows, errorRows := 0, 0, 0, 0, 0;
      loginEmailsSent, deliveryEmailsSent, emailsFailed := 0, 0, 0;
    }

    /** The row counters stand at the tallies of these outcomes. */
    predicate Tallied(outcomes: seq<Outcome>)
      reads this
    {
      && createdUsers == Count(outcomes, NewUsers) && updatedUsers == Count(outcomes, UpdatedRows)
      && alreadyHadAll == Count(outcomes, AlreadyHadRows) && skippedRows == Count(outcomes, SkippedRows)
      && errorRows == Count(outcomes, ErrorRows)
    }

    method UserHasAllDeliveries(env: Env, u: nat) returns (has: bool)
      ensures has == HasAll(db, env, u)
    {
      var owned: set<nat> := {};
      for k := 0 to |env.deliveries|
        invariant owned == set d | d in env.deliveries[..k] && (u, d) in db.deliveries &&
                                db.deliveries[(u, d)] == env.tenant
      {
        var d := env.deliveries[k];
        assert env.deliveries[..k+1] == env.deliveries[..k] + [d];
        if (u, d) in db.deliveries && db.deliveries[(u, d)] == env.tenant {
          owned := owned + {d};
        }
      }
      assert env.deliveries[..|env.deliveries|] == env.deliveries;
      assert owned == Owned(db, env, u);
      return |owned| >= |env.deliveries|;
    }

    method InsertMemberOnDeliveries(env: Env, u: nat)
      modifies this`db
      ensures db == AddDeliveries(old(db), env, u)
    {
      for k := 0 to |env.deliveries|
        invariant db == old(db).(deliveries := WithDeliveries(old(db).deliveries, u, env.deliveries[..k], env.tenant))
      {
        assert env.deliveries[..k+1][..k] == env.deliveries[..k];
        if (u, env.deliveries[k]) !in db.deliveries {
          db := db.(deliveries := db.deliveries[(u, env.deliveries[k]) := env.tenant]);
        }
      }
      assert env.deliveries[..|env.deliveries|] == env.deliveries;
    }

    /** The second half of a row: deliveries, token, member and memberships of user u. */
    method DeliverTo(env: Env, input: Input, u: nat, member: Option<Member>, c: Chance) returns (o: Outcome)
      modifies this`db
      ensures (db, o) == Deliver(old(db), env, input, u, member, c)
    {
      var isNew, hasAll := member.None?, false;
      if env.deliveries != [] && !isNew {
        if Fails(c, CountDeliveries) {
          return Outcome(Error, isNew, false);
        }
        hasAll := UserHasAllDeliveries(env, u);
      }
      if !hasAll {
        if !isNew && Fails(c, RefreshToken) {
          return Outcome(Error, isNew, false);
        }
        if Fails(c, InsertToken) {
          return Outcome(Error, isNew, false);
        }
        db := AddToken(db, u);
      }
      if !isNew && NeedsUpdate(input, member.value) {
        if Fails(c, UpdateMember) {
          return Outcome(Error, isNew, !hasAll);
        }
        db := Update(db, env, u, input);
      }
      if env.deliveries != [] && !hasAll {
        if Fails(c, InsertDeliveries) {
          return Outcome(Error, isNew, !hasAll);
        }
        InsertMemberOnDeliveries(env, u);
      }
      return Outcome(if isNew then Created else if hasAll then AlreadyHad else Updated, isNew, !hasAll);
    }

    method ProcessRow(env: Env, input: Input, c: Chance) returns (o: Outcome)
      modifies this`db
      ensures (db, o) == Row(old(db), env, input, c)
    {
      if IsBlank(input) {
        return Outcome(Skipped, false, false);
      }
      var email := env.lower(input.email);
      if !env.valid(email) || Fails(c, FindUser) {
        return Outcome(Error, false, false);
      }
      match Find(db, env, input, c) {
        case Nobody =>
          if Fails(c, CreateUser) {
            return Outcome(Error, false, false);
          }
          var u := db.nextUser;
          db := AddUser(db, email);
          if Fails(c, LinkTenant) {
            return Outcome(Error, true, false);
          }
          db := Link(db, env, u, input);
          o := DeliverTo(env, input, u, None, c);
        case Somebody(u, None) =>
          if Fails(c, LinkTenant) {
            return Outcome(Error, false, false);
          }
          db := Link(db, env, u, input);
          o := DeliverTo(env, input, u, None, c);
        case Somebody(u, Some(m)) =>
          o := DeliverTo(env, input, u, Some(m), c);
      }
    }

    /** A row counts as created when its user was, even if it fails later. */
    method CountRow(o: Outcome, ghost seen: seq<Outcome>)
      requires Tallied(seen) && Possible(o)
      modifies this`createdUsers, this`updatedUsers, this`alreadyHadAll, this`skippedRows, this`errorRows
      ensures Tallied(seen + [o])
    {
      assert (seen + [o])[..|seen|] == seen;
      if o.isNewUser {
        createdUsers := createdUsers + 1;
      }
      match o.status {
        case Created =>
        case Updated => updatedUsers := updatedUsers + 1;
        case AlreadyHad => alreadyHadAll := alreadyHadAll + 1;
        case Skipped => skippedRows := skippedRows + 1;
        case Error => errorRows := errorRows + 1;
      }
    }

    /** One row of a batch: seen are the outcomes so far. */
    method ProcessNext(env: Env, input: Input, c: Chance, ghost seen: seq<Outcome>) returns (o: Outcome)
      requires Tallied(seen)
      modifies this`db, this`createdUsers, this`updatedUsers, this`alreadyHadAll, this`skippedRows, this`errorRows
      ensures (db, o) == Row(old(db), env, input, c) && Tallied(seen + [o])
    {
      RowOutcome(db, env, input, c);
      o := ProcessRow(env, input, c);
      CountRow(o, seen);
    }

    /** These rows are processed, starting from db0; seen are the outcomes of the batches before them. */
    predicate Processed(env: Env, db0: Db, inputs: seq<Input>, chances: seq<Chance>, start: nat, seen: seq<Outcome>,
                        states: seq<RowState>)
      reads this
      requires |chances| == |inputs|
    {
      var r := Rows(db0, env, inputs, chances);
      db == r.0 && states == Unsent(start, inputs, r.1) && Tallied(seen + r.1)
    }

    /** Row i of the batch. */
    method ProcessStep(env: Env, batch: seq<Input>, chances: seq<Chance>, start: nat, i: nat, states: seq<RowState>,
                       ghost seen: seq<Outcome>, ghost db0: Db)
      returns (all: seq<RowState>)
      requires i < |batch| == |chances| && Processed(env, db0, batch[..i], chances[..i], start, seen, states)
      modifies this`db, this`createdUsers, this`updatedUsers, this`alreadyHadAll, this`skippedRows, this`errorRows
      ensures Processed(env, db0, batch[..i+1], chances[..i+1], start, seen, all)
    {
      ghost var before := Rows(db0, env, batch[..i], chances[..i]).1;
      RowsLast(db0, env, batch, chances, i);
      UnsentNext(db0, env, batch, chances, start, i);
      var o := ProcessNext(env, batch[i], chances[i], seen + before);
      assert seen + before + [o] == seen + (before + [o]);
      all := states + [RowState(start + i, batch[i], o, None, false)];
    }

    /** One batch; seen are the outcomes of the batches before it. */
    method ProcessBatch(env: Env, batch: seq<Input>, chances: seq<Chance>, batchStart: nat, ghost seen: seq<Outcome>)
      returns (states: seq<RowState>)
      requires |chances| == |batch| && Tallied(seen)
      modifies this`db, this`createdUsers, this`updatedUsers, this`alreadyHadAll, this`skippedRows, this`errorRows
      ensures db == Rows(old(db), env, batch, chances).0
      ensures states == Unsent(batchStart, batch, Rows(old(db), env, batch, chances).1)
      ensures Tallied(seen + Rows(old(db), env, batch, chances).1)
    {
      states := [];
      assert seen + [] == seen;
      for i := 0 to |batch|
        invariant Processed(env, old(db), batch[..i], chances[..i], batchStart, seen, states)
      {
        states := ProcessStep(env, batch, chances, batchStart, i, states, seen, old(db));
      }
      assert batch[..|batch|] == batch && chances[..|batch|] == chances;
    }

    /** Keeps the k-th row, or marks and drops it if its address does not validate. */
    method PartitionStep(env: Env, states: array<RowState>, idx: seq<nat>, k: nat, kind: MailKind, kept: seq<nat>,
                         ghost was: seq<RowState>)
      returns (sendable: seq<nat>)
      requires k < |idx| && Indices(idx, states.Length) && |was| == states.Length
      requires WithoutInvalid(env, was, states[..], idx[..k], kind) && kept == Sendable(env, was, idx[..k])
      modifies states, this`emailsFailed
      ensures WithoutInvalid(env, was, states[..], idx[..k+1], kind) && sendable == Sendable(env, was, idx[..k+1])
      ensures emailsFailed + |sendable| == old(emailsFailed) + |kept| + 1
    {
      var i := idx[k];
      ghost var before := states[..];
      SendableNext(env, was, idx, k);
      PartitionNext(env, was, before, idx, k, kind);
      if !ValidAddress(env, states[i]) {
        states[i] := Marked(states[i], kind, false);
        assert states[..] == before[i := Marked(was[i], kind, false)];
        emailsFailed := emailsFailed + 1;
        return kept;
      }
      sendable := kept + [i];
    }

    /** Drops the rows with an address that does not validate, so that they cannot spoil the batch. */
    method Partition(env: Env, states: array<RowState>, idx: seq<nat>, kind: MailKind) returns (sendable: seq<nat>)
      requires Indices(idx, states.Length)
      modifies states, this`emailsFailed
      ensures sendable == Sendable(env, old(states[..]), idx)
      ensures WithoutInvalid(env, old(states[..]), states[..], idx, kind)
      ensures emailsFailed == old(emailsFailed) + |idx| - |sendable|
    {
      sendable := [];
      ghost var was := states[..];
      for k := 0 to |idx|
        invariant sendable == Sendable(env, was, idx[..k])
        invariant WithoutInvalid(env, was, states[..], idx[..k], kind)
        invariant emailsFailed == old(emailsFailed) + k - |sendable|
      {
        sendable := PartitionStep(env, states, idx, k, kind, sendable, was);
      }
      assert idx[..|idx|] == idx;
    }

    /** Sends one batch of e-mails to the rows at idx: accepted or rejected as a whole. */
    method SendGroup(env: Env, states: array<RowState>, idx: seq<nat>, kind: MailKind,
                     hasPublicRoot: bool, accepted: bool)
      requires Indices(idx, states.Length)
      modifies states, this`loginEmailsSent, this`deliveryEmailsSent, this`emailsFailed
      ensures GroupMailed(env, old(states[..]), states[..], idx, kind, hasPublicRoot && accepted)
      ensures var sent := if hasPublicRoot && accepted then |Sendable(env, old(states[..]), idx)| else 0;
        && loginEmailsSent == old(loginEmailsSent) + (if kind.Login? then sent else 0)
        && deliveryEmailsSent == old(deliveryEmailsSent) + (if kind.Delivery? then sent else 0)
        && emailsFailed == old(emailsFailed) + |idx| - sent
    {
      if !hasPublicRoot {
        MarkAll(states, idx, kind, false);
        emailsFailed := emailsFailed + |idx|;
        return;
      }
      SendableMembers(env, states[..], idx);
      SendableIncreases(env, states[..], idx);
      var sendable := Partition(env, states, idx, kind);
      MarkAll(states, sendable, kind, accepted);
      if !accepted {
        emailsFailed := emailsFailed + |sendable|;
      } else if kind.Login? {
        loginEmailsSent := loginEmailsSent + |sendable|;
      } else {
        deliveryEmailsSent := deliveryEmailsSent + |sendable|;
      }
    }

    /** The e-mail phase of a batch: one group for the new users, one for the others. */
    method SendBatchEmails(env: Env, states: array<RowState>, m: Mailing)
      requires states.Length <= BATCH_SIZE
      modifies states, this`loginEmailsSent, this`deliveryEmailsSent, this`emailsFailed
      ensures AllCompleted(env, old(states[..]), states[..], m)
      ensures var logins := if m.hasPublicRoot && m.loginAccepted then Deliverable(env, old(states[..]), Login) else 0;
        var others := if m.hasPublicRoot && m.deliveryAccepted then Deliverable(env, old(states[..]), Delivery) else 0;
        && loginEmailsSent == old(loginEmailsSent) + logins
        && deliveryEmailsSent == old(deliveryEmailsSent) + others
        && emailsFailed == old(emailsFailed) + MailCount(Outcomes(old(states[..]))) - logins - others
    {
      var loginIdx := Select(states, Login);
      var deliveryIdx := Select(states, Delivery);
      ghost var was := states[..];
      SendGroup(env, states, loginIdx, Login, m.hasPublicRoot, m.loginAccepted);
      ghost var mid := states[..];
      SendGroup(env, states, deliveryIdx, Delivery, m.hasPublicRoot, m.deliveryAccepted);
      GroupsSendable(env, was, mid, loginIdx, deliveryIdx, m);
      GroupsComplete(env, was, mid, states[..], loginIdx, deliveryIdx, m);
    }

    /** The e-mail phase over the states of a processed batch. */
    method MailBatch(env: Env, processed: seq<RowState>, m: Mailing) returns (rows: seq<RowState>)
      requires |processed| <= BATCH_SIZE && AllValid(env, processed)
      modifies this`loginEmailsSent, this`deliveryEmailsSent, this`emailsFailed
      ensures AllCompleted(env, processed, rows, m)
      ensures loginEmailsSent == old(loginEmailsSent) + SentOf(Outcomes(processed), m, Login)
      ensures deliveryEmailsSent == old(deliveryEmailsSent) + SentOf(Outcomes(processed), m, Delivery)
      ensures emailsFailed == old(emailsFailed) + MailCount(Outcomes(processed))
                              - SentOf(Outcomes(processed), m, Login) - SentOf(Outcomes(processed), m, Delivery)
    {
      var states := new RowState[|processed|](k requires 0 <= k < |processed| => processed[k]);
      assert states[..] == processed;
      AllDeliverable(env, processed, Login);
      AllDeliverable(env, processed, Delivery);
      SendBatchEmails(env, states, m);
      rows := states[..];
    }

    /** The e-mail counters are those of these rows. */
    predicate Reported(rows: seq<RowState>)
      reads this
    {
      && loginEmailsSent == Sent(rows, Login) && deliveryEmailsSent == Sent(rows, Delivery)
      && emailsFailed == NotSent(rows)
    }

    /** One turn of the loop: process the rows, then send the e-mails. */
    method RunBatch(env: Env, batch: seq<Input>, chances: seq<Chance>, start: nat, m: Mailing, ghost seen: seq<Outcome>,
                    ghost before: seq<RowState>)
      returns (rows: seq<RowState>)
      requires |chances| == |batch| <= BATCH_SIZE && Tallied(seen) && Reported(before)
      modifies this
      ensures db == Rows(old(db), env, batch, chances).0
      ensures Tallied(seen + Rows(old(db), env, batch, chances).1)
      ensures rows == FinishedRows(start, batch, Rows(old(db), env, batch, chances).1, m)
      ensures Reported(before + rows)
    {
      ghost var own := Rows(db, env, batch, chances).1;
      ProcessedIsValid(db, env, batch, chances, start);
      var processed := ProcessBatch(env, batch, chances, start, seen);
      UnsentOutcomes(start, batch, own);
      rows := MailBatch(env, processed, m);
      BatchIsFinished(env, start, batch, own, m, rows);
      FinishedCounts(start, batch, own, m);
      SentConcat(before, rows);
    }

    /**
     * The whole import, in batches of 100. Every row gets exactly one outcome, the one it has when all rows are
     * processed in order; the counters add up, and those of the e-mails are those of the rows.
     */
    method RunImport(env: Env, users: seq<Input>, chances: seq<Chance>, mailings: seq<Mailing>, hashFails: bool)
      returns (status: FinalStatus, rows: seq<RowState>)
      requires |chances| == |users| && |users| <= BATCH_SIZE * |mailings|
      requires Tallied([]) && loginEmailsSent == deliveryEmailsSent == emailsFailed == 0
      modifies this
      ensures hashFails ==> status.Failed? && db == old(db) && rows == [] && Tallied([])
      ensures !hashFails ==>
        var outcomes := Rows(old(db), env, users, chances).1;
        && db == Rows(old(db), env, users, chances).0
        && Recorded(rows, users, outcomes, mailings)
        && Tallied(outcomes)
        && createdUsers + updatedUsers + alreadyHadAll + skippedRows + errorRows ==
           |users| + Count(outcomes, NewButError)
        && Reported(rows)
        && loginEmailsSent + deliveryEmailsSent + emailsFailed ==
           Count(outcomes, CreatedRows) + Count(outcomes, UpdatedRows)
        && ((forall b :: 0 <= b < |mailings| ==> AllAccepted(mailings[b])) ==> emailsFailed == 0)
        && status == if errorRows > 0 || emailsFailed > 0 then PartlyDone else AllDone
      ensures createdUsers == |set k: nat | k < |rows| && rows[k].outcome.isNewUser|
      ensures updatedUsers == |set k: nat | k < |rows| && rows[k].outcome.status.Updated?|
      ensures alreadyHadAll == |set k: nat | k < |rows| && rows[k].outcome.status.AlreadyHad?|
      ensures skippedRows == |set k: nat | k < |rows| && rows[k].outcome.status.Skipped?|
      ensures errorRows == |set k: nat | k < |rows| && rows[k].outcome.status.Error?|
      ensures loginEmailsSent == |set k: nat | k < |rows| && rows[k].mail == Some(Login) && rows[k].sent|
      ensures deliveryEmailsSent == |set k: nat | k < |rows| && rows[k].mail == Some(Delivery) && rows[k].sent|
      ensures emailsFailed == |set k: nat | k < |rows| && rows[k].mail.Some? && !rows[k].sent|
    {
      rows := [];
      if hashFails {
        CountersMean(this, rows);
        MailCountersMean(this, rows);
        return Failed, rows;
      }
      rows := ImportBatches(env, users, chances, mailings);
      RecordedOutcomes(rows, users, Rows(old(db), env, users, chances).1, mailings);
      CountersMean(this, rows);
      MailCountersMean(this, rows);
      Totals(old(db), env, users, chances);
      RecordedMails(rows, users, Rows(old(db), env, users, chances).1, mailings);
      status := if errorRows > 0 || emailsFailed > 0 then PartlyDone else AllDone;
    }

    /** The loop over the batches. */
    method ImportBatches(env: Env, users: seq<Input>, chances: seq<Chance>, mailings: seq<Mailing>)
      returns (rows: seq<RowState>)
      requires |chances| == |users| && |users| <= BATCH_SIZE * |mailings|
      requires Tallied([]) && Reported([])
      modifies this
      ensures Imported(env, old(db), users, chances, mailings, rows)
    {
      rows := [];
      var start, b := 0, 0;
      while start < |users|
        invariant start <= |users| && (start < |users| ==> start == BATCH_SIZE * b && b < |mailings|)
        invariant Imported(env, old(db), users[..start], chances[..start], mailings, rows)
        decreases |users| - start
      {
        var end := if start + BATCH_SIZE > |users| then |users| else start + BATCH_SIZE;
        rows := ImportBatch(env, users, chances, mailings, start, end, b, rows, old(db));
        start, b := end, b + 1;
      }
      assert users[..|users|] == users && chances[..|users|] == chances;
    }

    /** These inputs are imported, starting from db0. */
    predicate Imported(env: Env, db0: Db, inputs: seq<Input>, chances: seq<Chance>, mailings: seq<Mailing>,
                       rows: seq<RowState>)
      reads this
      requires |chances| == |inputs|
    {
      var r := Rows(db0, env, inputs, chances);
      db == r.0 && Tallied(r.1) && Recorded(rows, inputs, r.1, mailings) && Reported(rows)
    }

    /** One turn of the loop over the batches. */
    method ImportBatch(env: Env, users: seq<Input>, chances: seq<Chance>, mailings: seq<Mailing>, start: nat, end: nat,
                       b: nat, rows: seq<RowState>, ghost db0: Db)
      returns (all: seq<RowState>)
      requires |chances| == |users| && start <= end <= |users| && start == BATCH_SIZE * b && end <= start + BATCH_SIZE
      requires b < |mailings| && Imported(env, db0, users[..start], chances[..start], mailings, rows)
      modifies this
      ensures Imported(env, db0, users[..end], chances[..end], mailings, all)
    {
      ghost var seen := Rows(db0, env, users[..start], chances[..start]).1;
      ghost var own := Rows(db, env, users[start..end], chances[start..end]).1;
      RowsNext(db0, env, users, chances, start, end);
      RecordedNext(rows, users, seen, mailings, start, end, b, own);
      var more := RunBatch(env, users[start..end], chances[start..end], start, mailings[b], seen, rows);
      all := rows + more;
    }
  }

  /** The counters of a whole list: see CountersAddUp. */
  lemma {:induction false} Totals(db: Db, env: Env, inputs: seq<Input>, chances: seq<Chance>)
    requires |chances| == |inputs|
    ensures var o := Rows(db, env, inputs, chances).1;
      && Count(o, NewUsers) + Count(o, UpdatedRows) + Count(o, AlreadyHadRows) + Count(o, SkippedRows)
         + Count(o, ErrorRows)
         == |inputs| + Count(o, NewButError)
      && MailCount(o) == Count(o, CreatedRows) + Count(o, UpdatedRows)
  {
    RowsArePossible(db, env, inputs, chances);
    CountersAddUp(Rows(db, env, inputs, chances).1);
  }

  // ---------- What the counters count ----------

  /** The rows whose outcome counts in this tally. */
  function Tallying(rows: seq<RowState>, t: Tally): set<nat> {
    set k: nat | k < |rows| && Counts(rows[k].outcome, t)
  }

  lemma {:induction false} TallyingNext(rows: seq<RowState>, t: Tally)
    requires rows != []
    ensures var n := |rows| - 1;
      Tallying(rows, t) == Tallying(rows[..n], t) + if Counts(rows[n].outcome, t) then {n} else {}
  {
  }

  lemma {:induction false} CountIsTallying(rows: seq<RowState>, t: Tally)
    ensures Count(Outcomes(rows), t) == |Tallying(rows, t)|
  {
    if rows == [] {
      assert Tallying(rows, t) == {};
    } else {
      var n := |rows| - 1;
      CountIsTallying(rows[..n], t);
      TallyingNext(rows, t);
      assert Outcomes(rows)[..n] == Outcomes(rows[..n]) && n !in Tallying(rows[..n], t);
    }
  }

  /** The rows whose e-mail of this kind was sent. */
  function SentRows(rows: seq<RowState>, kind: MailKind): set<nat> {
    set k: nat | k < |rows| && rows[k].mail == Some(kind) && rows[k].sent
  }

  /** The rows whose e-mail was not sent. */
  function UnsentRows(rows: seq<RowState>): set<nat> {
    set k: nat | k < |rows| && rows[k].mail.Some? && !rows[k].sent
  }

  lemma {:induction false} MailedNext(rows: seq<RowState>, kind: MailKind)
    requires rows != []
    ensures var n := |rows| - 1;
      && SentRows(rows, kind) ==
         SentRows(rows[..n], kind) + (if rows[n].mail == Some(kind) && rows[n].sent then {n} else {})
      && UnsentRows(rows) == UnsentRows(rows[..n]) + if rows[n].mail.Some? && !rows[n].sent then {n} else {}
  {
  }

  lemma {:induction false} MailsAreRows(rows: seq<RowState>, kind: MailKind)
    ensures Sent(rows, kind) == |SentRows(rows, kind)| && NotSent(rows) == |UnsentRows(rows)|
  {
    if rows == [] {
      assert SentRows(rows, kind) == {};
      assert UnsentRows(rows) == {};
    } else {
      var n := |rows| - 1;
      MailsAreRows(rows[..n], kind);
      MailedNext(rows, kind);
      assert n !in SentRows(rows[..n], kind) && n !in UnsentRows(rows[..n]);
    }
  }

  /** Each counter of the rows is the number of those that it is named for. */
  lemma {:induction false} CountersMean(job: ImportJob, rows: seq<RowState>)
    requires job.Tallied(Outcomes(rows))
    ensures job.createdUsers == |set k: nat | k < |rows| && rows[k].outcome.isNewUser|
    ensures job.updatedUsers == |set k: nat | k < |rows| && rows[k].outcome.status.Updated?|
    ensures job.alreadyHadAll == |set k: nat | k < |rows| && rows[k].outcome.status.AlreadyHad?|
    ensures job.skippedRows == |set k: nat | k < |rows| && rows[k].outcome.status.Skipped?|
    ensures job.errorRows == |set k: nat | k < |rows| && rows[k].outcome.status.Error?|
  {
    CountIsTallying(rows, NewUsers);
    CountIsTallying(rows, UpdatedRows);
    CountIsTallying(rows, AlreadyHadRows);
    CountIsTallying(rows, SkippedRows);
    CountIsTallying(rows, ErrorRows);
    assert Tallying(rows, NewUsers) == set k: nat | k < |rows| && rows[k].outcome.isNewUser;
    assert Tallying(rows, UpdatedRows) == set k: nat | k < |rows| && rows[k].outcome.status.Updated?;
    assert Tallying(rows, AlreadyHadRows) == set k: nat | k < |rows| && rows[k].outcome.status.AlreadyHad?;
    assert Tallying(rows, SkippedRows) == set k: nat | k < |rows| && rows[k].outcome.status.Skipped?;
    assert Tallying(rows, ErrorRows) == set k: nat | k < |rows| && rows[k].outcome.status.Error?;
  }

  /** ... and each counter of e-mails that of the e-mails sent of its kind, or of those not sent. */
  lemma {:induction false} MailCountersMean(job: ImportJob, rows: seq<RowState>)
    requires job.Reported(rows)
    ensures job.loginEmailsSent == |set k: nat | k < |rows| && rows[k].mail == Some(Login) && rows[k].sent|
    ensures job.deliveryEmailsSent == |set k: nat | k < |rows| && rows[k].mail == Some(Delivery) && rows[k].sent|
    ensures job.emailsFailed == |set k: nat | k < |rows| && rows[k].mail.Some? && !rows[k].sent|
  {
    MailsAreRows(rows, Login);
    MailsAreRows(rows, Delivery);
    assert SentRows(rows, Login) == set k: nat | k < |rows| && rows[k].mail == Some(Login) && rows[k].sent;
    assert SentRows(rows, Delivery) == set k: nat | k < |rows| && rows[k].mail == Some(Delivery) && rows[k].sent;
    assert UnsentRows(rows) == set k: nat | k < |rows| && rows[k].mail.Some? && !rows[k].sent;
  }

  /** How many of these rows get an e-mail. */
  function MailCount(outcomes: seq<Outcome>): nat {
    Count(outcomes, MailLogin) + Count(outcomes, MailDelivery)
  }

  lemma {:induction false} MailCountConcat(a: seq<Outcome>, b: seq<Outcome>)
    ensures MailCount(a + b) == MailCount(a) + MailCount(b)
  {
    CountConcat(a, b, MailLogin);
    CountConcat(a, b, MailDelivery);
  }

  function FinishedRows(start: nat, inputs: seq<Input>, outcomes: seq<Outcome>, m: Mailing): (rows: seq<RowState>)
    requires |outcomes| == |inputs|
    ensures |rows| == |inputs|
  {
    if inputs == [] then []
    else
      var n := |inputs| - 1;
      FinishedRows(start, inputs[..n], outcomes[..n], m) + [Finished(start + n, inputs[n], outcomes[n], m)]
  }

  lemma {:induction false} FinishedAt(start: nat, inputs: seq<Input>, outcomes: seq<Outcome>, m: Mailing, k: nat)
    requires k < |inputs| == |outcomes|
    ensures FinishedRows(start, inputs, outcomes, m)[k] == Finished(start + k, inputs[k], outcomes[k], m)
  {
    var n := |inputs| - 1;
    if k < n {
      FinishedAt(start, inputs[..n], outcomes[..n], m, k);
    }
  }

  predicate RecordedAt(rows: seq<RowState>, inputs: seq<Input>, outcomes: seq<Outcome>, mailings: seq<Mailing>,
                       k: nat) {
    && k < |rows| && k < |inputs| && k < |outcomes| && k / BATCH_SIZE < |mailings|
    && rows[k] == Finished(k, inputs[k], outcomes[k], mailings[k / BATCH_SIZE])
  }

  /** One row per input, with its index, its outcome and what became of its e-mail. */
  predicate Recorded(rows: seq<RowState>, inputs: seq<Input>, outcomes: seq<Outcome>, mailings: seq<Mailing>) {
    |rows| == |inputs| == |outcomes| && forall k :: 0 <= k < |rows| ==> RecordedAt(rows, inputs, outcomes, mailings, k)
  }

  lemma {:induction false} RecordedOutcomes(rows: seq<RowState>, inputs: seq<Input>, outcomes: seq<Outcome>,
                                            mailings: seq<Mailing>)
    requires Recorded(rows, inputs, outcomes, mailings)
    ensures Outcomes(rows) == outcomes
  {
    forall k | 0 <= k < |rows|
      ensures Outcomes(rows)[k] == outcomes[k]
    {
      assert RecordedAt(rows, inputs, outcomes, mailings, k);
    }
  }

  /** A recorded row is that of its input; created and updated rows have an e-mail of their kind, and no others. */
  lemma {:induction false} RecordedMeans(rows: seq<RowState>, inputs: seq<Input>, outcomes: seq<Outcome>,
                                         mailings: seq<Mailing>, k: nat)
    requires Recorded(rows, inputs, outcomes, mailings) && k < |rows| && Possible(outcomes[k])
    ensures k / 100 < |mailings|
    ensures var row, m := rows[k], mailings[k / 100];
      && row.rowIndex == k && row.input == inputs[k] && row.outcome == outcomes[k]
      && (row.mail == Some(Login) <==> row.outcome.status.Created?)
      && (row.mail == Some(Delivery) <==> row.outcome.status.Updated?)
      && (row.sent <==> m.hasPublicRoot && ((row.outcome.status.Created? && m.loginAccepted) ||
                                            (row.outcome.status.Updated? && m.deliveryAccepted)))
  {
    assert RecordedAt(rows, inputs, outcomes, mailings, k);
  }

  lemma {:induction false} RecordedNext(rows: seq<RowState>, users: seq<Input>, outcomes: seq<Outcome>,
                                        mailings: seq<Mailing>, start: nat, end: nat, b: nat, own: seq<Outcome>)
    requires start <= end <= |users| && start == BATCH_SIZE * b && end <= start + BATCH_SIZE && b < |mailings|
    requires |own| == end - start && Recorded(rows, users[..start], outcomes, mailings)
    ensures Recorded(rows + FinishedRows(start, users[start..end], own, mailings[b]),
                     users[..end], outcomes + own, mailings)
  {
    var all := rows + FinishedRows(start, users[start..end], own, mailings[b]);
    forall k | 0 <= k < |all|
      ensures RecordedAt(all, users[..end], outcomes + own, mailings, k)
    {
      if k >= start {
        FinishedAt(start, users[start..end], own, mailings[b], k - start);
        assert k / BATCH_SIZE == b;
        assert users[start..end][k - start] == users[k];
      } else {
        assert RecordedAt(rows, users[..start], outcomes, mailings, k);
      }
    }
  }

  lemma {:induction false} RowsNext(db: Db, env: Env, users: seq<Input>, chances: seq<Chance>, start: nat, end: nat)
    requires |chances| == |users| && start <= end <= |users|
    ensures var before := Rows(db, env, users[..start], chances[..start]);
      var own := Rows(before.0, env, users[start..end], chances[start..end]);
      Rows(db, env, users[..end], chances[..end]) == (own.0, before.1 + own.1)
  {
    assert users[..start] + users[start..end] == users[..end];
    assert chances[..start] + chances[start..end] == chances[..end];
    RowsConcat(db, env, users[..start], users[start..end], chances[..start], chances[start..end]);
  }

  /** Whoever is to get an e-mail has a valid address. */
  predicate AllValid(env: Env, states: seq<RowState>) {
    forall k :: 0 <= k < |states| && Mails(states[k].outcome) ==> ValidAddress(env, states[k])
  }

  lemma {:induction false} ProcessedIsValid(db: Db, env: Env, batch: seq<Input>, chances: seq<Chance>, start: nat)
    requires |chances| == |batch|
    ensures AllValid(env, Unsent(start, batch, Rows(db, env, batch, chances).1))
  {
    MailedRowsAreValid(db, env, batch, chances);
    var outcomes := Rows(db, env, batch, chances).1;
    forall k | 0 <= k < |batch|
      ensures Unsent(start, batch, outcomes)[k] == RowState(start + k, batch[k], outcomes[k], None, false)
    {
      UnsentAt(start, batch, outcomes, k);
    }
  }

  lemma {:induction false} RowIsFinished(env: Env, k: nat, input: Input, o: Outcome, m: Mailing)
    requires Mails(o) ==> ValidAddress(env, RowState(k, input, o, None, false))
    ensures Completed(env, RowState(k, input, o, None, false), m) == Finished(k, input, o, m)
  {
  }

  /** What the e-mail phase makes of a processed batch. */
  lemma {:induction false} BatchIsFinished(env: Env, start: nat, batch: seq<Input>, outcomes: seq<Outcome>, m: Mailing,
                                           rows: seq<RowState>)
    requires |outcomes| == |batch| && AllValid(env, Unsent(start, batch, outcomes))
    requires AllCompleted(env, Unsent(start, batch, outcomes), rows, m)
    ensures rows == FinishedRows(start, batch, outcomes, m)
  {
    forall k | 0 <= k < |rows|
      ensures rows[k] == FinishedRows(start, batch, outcomes, m)[k]
    {
      UnsentAt(start, batch, outcomes, k);
      RowIsFinished(env, start + k, batch[k], outcomes[k], m);
      FinishedAt(start, batch, outcomes, m, k);
    }
  }

  predicate AllAccepted(m: Mailing) {
    m.hasPublicRoot && m.loginAccepted && m.deliveryAccepted
  }

  /** How many e-mails of this kind a batch with these outcomes sends when every address is valid. */
  function SentOf(outcomes: seq<Outcome>, m: Mailing, kind: MailKind): nat {
    if m.hasPublicRoot && (if kind.Login? then m.loginAccepted else m.deliveryAccepted)
    then Count(outcomes, if kind.Login? then MailLogin else MailDelivery) else 0
  }

  /** The rows whose e-mail of this kind was sent. */
  function Sent(rows: seq<RowState>, kind: MailKind): nat {
    if rows == [] then 0
    else Sent(rows[..|rows| - 1], kind) +
         if rows[|rows| - 1].mail == Some(kind) && rows[|rows| - 1].sent then 1 else 0
  }

  /** The rows whose e-mail was not sent. */
  function NotSent(rows: seq<RowState>): nat {
    if rows == [] then 0
    else NotSent(rows[..|rows| - 1]) + if rows[|rows| - 1].mail.Some? && !rows[|rows| - 1].sent then 1 else 0
  }

  lemma {:induction false} SentConcat(a: seq<RowState>, b: seq<RowState>)
    ensures Sent(a + b, Login) == Sent(a, Login) + Sent(b, Login)
    ensures Sent(a + b, Delivery) == Sent(a, Delivery) + Sent(b, Delivery)
    ensures NotSent(a + b) == NotSent(a) + NotSent(b)
  {
    if b == [] {
      assert a + b == a;
    } else {
      var n := |b| - 1;
      assert (a + b)[..|a| + n] == a + b[..n];
      SentConcat(a, b[..n]);
    }
  }

  lemma {:induction false} FinishedCounts(start: nat, inputs: seq<Input>, outcomes: seq<Outcome>, m: Mailing)
    requires |inputs| == |outcomes|
    ensures var rows := FinishedRows(start, inputs, outcomes, m);
      && Sent(rows, Login) == SentOf(outcomes, m, Login)
      && Sent(rows, Delivery) == SentOf(outcomes, m, Delivery)
      && NotSent(rows) == MailCount(outcomes) - SentOf(outcomes, m, Login) - SentOf(outcomes, m, Delivery)
  {
    if inputs != [] {
      FinishedCounts(start, inputs[..|inputs| - 1], outcomes[..|inputs| - 1], m);
    }
  }

  /** Every e-mail is sent or not; and if every group of e-mails is accepted, none is not. */
  lemma {:induction false} RecordedMails(rows: seq<RowState>, inputs: seq<Input>, outcomes: seq<Outcome>,
                                         mailings: seq<Mailing>)
    requires Recorded(rows, inputs, outcomes, mailings)
    ensures Sent(rows, Login) + Sent(rows, Delivery) + NotSent(rows) == MailCount(outcomes)
    ensures (forall b :: 0 <= b < |mailings| ==> AllAccepted(mailings[b])) ==> NotSent(rows) == 0
  {
    if rows != [] {
      var n := |rows| - 1;
      assert RecordedAt(rows, inputs, outcomes, mailings, n);
      forall k | 0 <= k < n
        ensures RecordedAt(rows[..n], inputs[..n], outcomes[..n], mailings, k)
      {
        assert RecordedAt(rows, inputs, outcomes, mailings, k);
      }
      RecordedMails(rows[..n], inputs[..n], outcomes[..n], mailings);
    }
  }

  datatype FinalStatus = AllDone | PartlyDone | Failed

  /** A row in the end: its e-mail fails only if the whole group does, never because of its address. */
  function Finished(k: nat, input: Input, o: Outcome, m: Mailing): RowState {
    var accepted := m.hasPublicRoot && if o.isNewUser then m.loginAccepted else m.deliveryAccepted;
    if Mails(o) then RowState(k, input, o, Some(if o.isNewUser then Login else Delivery), accepted)
    else RowState(k, input, o, None, false)
  }

  lemma {:induction false} RowsConcat(db: Db, env: Env, a: seq<Input>, b: seq<Input>, ca: seq<Chance>, cb: seq<Chance>)
    requires |ca| == |a| && |cb| == |b|
    ensures var before := Rows(db, env, a, ca);
      var after := Rows(before.0, env, b, cb);
      Rows(db, env, a + b, ca + cb) == (after.0, before.1 + after.1)
  {
    if b == [] {
      assert a + b == a && ca + cb == ca;
      assert Rows(db, env, a, ca).1 + [] == Rows(db, env, a, ca).1;
    } else {
      var n := |b| - 1;
      RowsConcat(db, env, a, b[..n], ca, cb[..n]);
      assert (a + b)[..|a| + n] == a + b[..n] && (ca + cb)[..|a| + n] == ca + cb[..n];
      assert (a + b)[|a| + n] == b[n] && (ca + cb)[|a| + n] == cb[n];
      var before := Rows(db, env, a, ca);
      var mid := Rows(before.0, env, b[..n], cb[..n]);
      var last := Row(mid.0, env, b[n], cb[n]).1;
      assert (before.1 + mid.1) + [last] == before.1 + (mid.1 + [last]);
    }
  }

  /** Whoever gets an e-mail has passed the first validation. */
  lemma {:induction false} MailedRowsAreValid(db: Db, env: Env, inputs: seq<Input>, chances: seq<Chance>)
    requires |chances| == |inputs|
    ensures forall k :: 0 <= k < |inputs| && Mails(Rows(db, env, inputs, chances).1[k]) ==> IsValid(env, inputs[k])
  {
    if inputs != [] {
      var n := |inputs| - 1;
      MailedRowsAreValid(db, env, inputs[..n], chances[..n]);
      assert forall k :: 0 <= k < n ==> inputs[..n][k] == inputs[k];
      RowOutcome(Rows(db, env, inputs[..n], chances[..n]).0, env, inputs[n], chances[n]);
    }
  }

  /** idx are the rows that get an e-mail of this kind, in order. */
  ghost predicate Selected(states: seq<RowState>, idx: seq<nat>, kind: MailKind) {
    Indices(idx, |states|) && forall i: nat :: i in idx <==> i < |states| && Gets(states[i].outcome, kind)
  }

  /** The rows that get an e-mail of this kind, in order; never more than a batch holds. */
  method Select(states: array<RowState>, kind: MailKind) returns (idx: seq<nat>)
    ensures Selected(states[..], idx, kind) && |idx| <= states.Length
    ensures |idx| == Count(Outcomes(states[..]), if kind.Login? then MailLogin else MailDelivery)
  {
    idx := [];
    for i := 0 to states.Length
      invariant Indices(idx, i) && |idx| <= i
      invariant forall j: nat :: j in idx <==> j < i && Gets(states[j].outcome, kind)
      invariant |idx| == Count(Outcomes(states[..i]), if kind.Login? then MailLogin else MailDelivery)
    {
      assert Outcomes(states[..i+1])[..i] == Outcomes(states[..i]);
      if Gets(states[i].outcome, kind) {
        idx := idx + [i];
      }
    }
    assert states[..states.Length] == states[..];
  }

  method MarkAll(states: array<RowState>, idx: seq<nat>, kind: MailKind, sent: bool)
    requires Indices(idx, states.Length)
    modifies states
    ensures forall i :: 0 <= i < states.Length ==>
      states[i] == if i in idx then Marked(old(states[i]), kind, sent) else old(states[i])
  {
    for k := 0 to |idx|
      invariant forall i :: 0 <= i < states.Length ==>
        states[i] == if i in idx[..k] then Marked(old(states[i]), kind, sent) else old(states[i])
    {
      assert idx[..k+1] == idx[..k] + [idx[k]];
      states[idx[k]] := Marked(states[idx[k]], kind, sent);
    }
    assert idx[..|idx|] == idx;
  }

  predicate Gets(o: Outcome, kind: MailKind) {
    Mails(o) && (o.isNewUser <==> kind.Login?)
  }

  function Outcomes(states: seq<RowState>): (o: seq<Outcome>)
    ensures |o| == |states|
    ensures forall k :: 0 <= k < |states| ==> o[k] == states[k].outcome
  {
    seq(|states|, k requires 0 <= k < |states| => states[k].outcome)
  }

  predicate ValidAddress(env: Env, s: RowState) {
    env.valid(env.lower(s.input.email))
  }

  function Marked(s: RowState, kind: MailKind, sent: bool): RowState {
    s.(mail := Some(kind), sent := sent)
  }

  /** A row after the e-mail phase. */
  function Completed(env: Env, s: RowState, m: Mailing): RowState {
    if !Mails(s.outcome) then s
    else if s.outcome.isNewUser then Mailed(env, s, Login, m.hasPublicRoot && m.loginAccepted)
    else Mailed(env, s, Delivery, m.hasPublicRoot && m.deliveryAccepted)
  }

  predicate Indices(idx: seq<nat>, n: nat) {
    && (forall k :: 0 <= k < |idx| ==> idx[k] < n)
    && (forall j, k :: 0 <= j < k < |idx| ==> idx[j] < idx[k])
  }

  function Mailed(env: Env, s: RowState, kind: MailKind, accepted: bool): RowState {
    Marked(s, kind, accepted && ValidAddress(env, s))
  }

  /** now is was with the rows at idx whose address does not validate marked as not sent. */
  predicate WithoutInvalid(env: Env, was: seq<RowState>, now: seq<RowState>, idx: seq<nat>, kind: MailKind) {
    && |now| == |was|
    && forall i :: 0 <= i < |was| ==>
         now[i] == if i in idx && !ValidAddress(env, was[i]) then Marked(was[i], kind, false) else was[i]
  }

  lemma {:induction false} SendableNext(env: Env, was: seq<RowState>, idx: seq<nat>, k: nat)
    requires k < |idx| && Indices(idx, |was|)
    ensures Sendable(env, was, idx[..k+1]) ==
            Sendable(env, was, idx[..k]) + if ValidAddress(env, was[idx[k]]) then [idx[k]] else []
  {
    assert idx[..k+1][..k] == idx[..k];
  }

  lemma {:induction false} PartitionNext(env: Env, was: seq<RowState>, now: seq<RowState>, idx: seq<nat>, k: nat,
                                         kind: MailKind)
    requires k < |idx| && Indices(idx, |was|) && WithoutInvalid(env, was, now, idx[..k], kind)
    ensures now[idx[k]] == was[idx[k]]
    ensures WithoutInvalid(env, was,
                           if ValidAddress(env, was[idx[k]]) then now
                           else now[idx[k] := Marked(was[idx[k]], kind, false)],
                           idx[..k+1], kind)
  {
    assert idx[k] !in idx[..k];
    assert idx[..k+1] == idx[..k] + [idx[k]];
    assert forall i :: i in idx[..k+1] <==> i in idx[..k] || i == idx[k];
  }

  /** now is was after the e-mails to the rows at idx. */
  predicate GroupMailed(env: Env, was: seq<RowState>, now: seq<RowState>, idx: seq<nat>, kind: MailKind,
                        accepted: bool) {
    && |now| == |was|
    && forall i :: 0 <= i < |was| ==> now[i] == if i in idx then Mailed(env, was[i], kind, accepted) else was[i]
  }

  predicate AllCompleted(env: Env, was: seq<RowState>, now: seq<RowState>, m: Mailing) {
    |now| == |was| && forall i :: 0 <= i < |was| ==> now[i] == Completed(env, was[i], m)
  }

  lemma {:induction false} GroupsComplete(env: Env, was: seq<RowState>, mid: seq<RowState>, now: seq<RowState>,
                                          loginIdx: seq<nat>, deliveryIdx: seq<nat>, m: Mailing)
    requires Selected(was, loginIdx, Login) && Selected(was, deliveryIdx, Delivery)
    requires GroupMailed(env, was, mid, loginIdx, Login, m.hasPublicRoot && m.loginAccepted)
    requires GroupMailed(env, mid, now, deliveryIdx, Delivery, m.hasPublicRoot && m.deliveryAccepted)
    ensures AllCompleted(env, was, now, m)
  {
  }

  lemma {:induction false} GroupsSendable(env: Env, was: seq<RowState>, mid: seq<RowState>, loginIdx: seq<nat>,
                                          deliveryIdx: seq<nat>, m: Mailing)
    requires Selected(was, loginIdx, Login) && Selected(was, deliveryIdx, Delivery)
    requires GroupMailed(env, was, mid, loginIdx, Login, m.hasPublicRoot && m.loginAccepted)
    ensures |Sendable(env, was, loginIdx)| == Deliverable(env, was, Login)
    ensures |Sendable(env, mid, deliveryIdx)| == Deliverable(env, was, Delivery)
  {
    assert was[..|was|] == was && mid[..|mid|] == mid;
    SendableCount(env, was, loginIdx, |was|, Login);
    SendableCount(env, mid, deliveryIdx, |mid|, Delivery);
    SameDeliverable(env, was, mid, Delivery);
  }

  /** The rows whose address passes the second validation. */
  function Sendable(env: Env, states: seq<RowState>, idx: seq<nat>): (sendable: seq<nat>)
    requires forall k :: 0 <= k < |idx| ==> idx[k] < |states|
    ensures |sendable| <= |idx|
  {
    if idx == [] then []
    else
      Sendable(env, states, idx[..|idx| - 1]) +
      if ValidAddress(env, states[idx[|idx| - 1]]) then [idx[|idx| - 1]] else []
  }

  lemma {:induction false} SendableMembers(env: Env, states: seq<RowState>, idx: seq<nat>)
    requires Indices(idx, |states|)
    ensures forall i: nat :: i in Sendable(env, states, idx) <==>
      i in idx && i < |states| && ValidAddress(env, states[i])
  {
    if idx != [] {
      var n := |idx| - 1;
      SendableMembers(env, states, idx[..n]);
      assert idx == idx[..n] + [idx[n]];
    }
  }

  lemma {:induction false} SendableIncreases(env: Env, states: seq<RowState>, idx: seq<nat>)
    requires Indices(idx, |states|)
    ensures Indices(Sendable(env, states, idx), |states|)
  {
    if idx != [] {
      var n := |idx| - 1;
      SendableIncreases(env, states, idx[..n]);
      SendableMembers(env, states, idx[..n]);
      var rest := Sendable(env, states, idx[..n]);
      forall j | 0 <= j < |rest|
        ensures rest[j] < idx[n]
      {
        assert rest[j] in idx[..n];
      }
    }
  }

  /** The rows that are to get an e-mail of this kind and whose address passes the second validation. */
  function Deliverable(env: Env, states: seq<RowState>, kind: MailKind): nat {
    if states == [] then 0
    else
      var last := states[|states| - 1];
      Deliverable(env, states[..|states| - 1], kind) +
      if Gets(last.outcome, kind) && ValidAddress(env, last) then 1 else 0
  }

  lemma {:induction false} SendableCount(env: Env, states: seq<RowState>, idx: seq<nat>, n: nat, kind: MailKind)
    requires n <= |states| && Indices(idx, n)
    requires forall i: nat :: i in idx <==> i < n && Gets(states[i].outcome, kind)
    ensures |Sendable(env, states, idx)| == Deliverable(env, states[..n], kind)
  {
    if n > 0 {
      assert states[..n][..n-1] == states[..n-1];
      if Gets(states[n-1].outcome, kind) {
        LastIndex(idx, n);
        SendableCount(env, states, idx[..|idx| - 1], n - 1, kind);
      } else {
        SendableCount(env, states, idx, n - 1, kind);
      }
    } else {
      assert idx == [];
    }
  }

  lemma {:induction false} LastIndex(idx: seq<nat>, n: nat)
    requires n > 0 && Indices(idx, n) && n - 1 in idx
    ensures idx[|idx| - 1] == n - 1 && Indices(idx[..|idx| - 1], n - 1)
    ensures forall i: nat :: i in idx[..|idx| - 1] <==> i in idx && i < n - 1
  {
  }

  lemma {:induction false} SameDeliverable(env: Env, a: seq<RowState>, b: seq<RowState>, kind: MailKind)
    requires |a| == |b|
    requires forall k :: 0 <= k < |a| ==> a[k].outcome == b[k].outcome && a[k].input == b[k].input
    ensures Deliverable(env, a, kind) == Deliverable(env, b, kind)
  {
    if a != [] {
      SameDeliverable(env, a[..|a| - 1], b[..|a| - 1], kind);
    }
  }

  /** If all addresses are valid nothing is dropped. */
  lemma {:induction false} AllDeliverable(env: Env, states: seq<RowState>, kind: MailKind)
    requires AllValid(env, states)
    ensures Deliverable(env, states, kind) == Count(Outcomes(states), if kind.Login? then MailLogin else MailDelivery)
  {
    if states != [] {
      var n := |states| - 1;
      AllDeliverable(env, states[..n], kind);
      assert Outcomes(states)[..n] == Outcomes(states[..n]);
    }
  }

  /** The rows of a batch before the e-mail phase. */
  function Unsent(start: nat, inputs: seq<Input>, outcomes: seq<Outcome>): (states: seq<RowState>)
    requires |outcomes| == |inputs|
    ensures |states| == |inputs|
  {
    if inputs == [] then []
    else
      var n := |inputs| - 1;
      Unsent(start, inputs[..n], outcomes[..n]) + [RowState(start + n, inputs[n], outcomes[n], None, false)]
  }

  lemma {:induction false} UnsentAt(start: nat, inputs: seq<Input>, outcomes: seq<Outcome>, k: nat)
    requires k < |inputs| == |outcomes|
    ensures Unsent(start, inputs, outcomes)[k] == RowState(start + k, inputs[k], outcomes[k], None, false)
  {
    var n := |inputs| - 1;
    if k < n {
      UnsentAt(start, inputs[..n], outcomes[..n], k);
    }
  }

  lemma {:induction false} UnsentOutcomes(start: nat, inputs: seq<Input>, outcomes: seq<Outcome>)
    requires |inputs| == |outcomes|
    ensures Outcomes(Unsent(start, inputs, outcomes)) == outcomes
  {
    forall k | 0 <= k < |inputs|
      ensures Outcomes(Unsent(start, inputs, outcomes))[k] == outcomes[k]
    {
      UnsentAt(start, inputs, outcomes, k);
    }
  }

  lemma {:induction false} UnsentNext(db: Db, env: Env, batch: seq<Input>, chances: seq<Chance>, start: nat, i: nat)
    requires |chances| == |batch| && i < |batch|
    ensures var before := Rows(db, env, batch[..i], chances[..i]);
      Unsent(start, batch[..i+1], Rows(db, env, batch[..i+1], chances[..i+1]).1) ==
      Unsent(start, batch[..i], before.1) +
      [RowState(start + i, batch[i], Row(before.0, env, batch[i], chances[i]).1, None, false)]
  {
    RowsLast(db, env, batch, chances, i);
    var before := Rows(db, env, batch[..i], chances[..i]).1;
    var after := Rows(db, env, batch[..i+1], chances[..i+1]).1;
    assert batch[..i+1][..i] == batch[..i] && after[..i] == before;
  }

  lemma {:induction false} RowsLast(db: Db, env: Env, inputs: seq<Input>, chances: seq<Chance>, i: nat)
    requires |chances| == |inputs| && i < |inputs|
    ensures var before := Rows(db, env, inputs[..i], chances[..i]);
      var last := Row(before.0, env, inputs[i], chances[i]);
      Rows(db, env, inputs[..i+1], chances[..i+1]) == (last.0, before.1 + [last.1]) && Possible(last.1)
  {
    assert inputs[..i+1][..i] == inputs[..i] && chances[..i+1][..i] == chances[..i];
    RowOutcome(Rows(db, env, inputs[..i], chances[..i]).0, env, inputs[i], chances[i]);
  }
}
