/** Members: the `members` table, the repository over it and the member
    service's find-or-create, which maps a verified identity-provider user
    (uid, email, display name) to exactly one stored row. */
module Members {
  import opened Wrappers
  import opened Strings
  import opened JavaLang

  /** A row of `members`. The store assigns `id` when it inserts the row;
      a Member built by the constructor has none yet. */
  datatype Member = Member(id: Option<int>, email: string, name: string, firebaseUid: string)

  /** `new Member(email, name, firebaseUid)`: the three columns as given, in
      that parameter order, and no id. */
  function NewMember(email: string, name: string, firebaseUid: string): (m: Member)
    ensures m.id.None?
    ensures m.email == email && m.name == name && m.firebaseUid == firebaseUid
  {
    Member(None, email, name, firebaseUid)
  }

  /** The emails in use. */
  function Emails(rows: map<string, Member>): set<string> {
    set u | u in rows :: rows[u].email
  }

  /** The table's constraints, with rows keyed by `firebase_uid`: the key is
      the row's own uid (so the uid is unique and present), emails are
      unique, and ids are present, positive, distinct and below the next
      id the identity column will hand out (which starts at 1). Every column is a Dafny value, so none
      can be null. */
  ghost predicate TableInvariant(rows: map<string, Member>, nextId: int) {
    && 1 <= nextId
    && (forall u | u in rows :: rows[u].firebaseUid == u && rows[u].id.Some? && 1 <= rows[u].id.value < nextId)
    && (forall u, v | u in rows && v in rows && u != v ::
          rows[u].email != rows[v].email && rows[u].id != rows[v].id)
  }

  /** Whether an insert of `m` passes both unique constraints. */
  predicate Admits(rows: map<string, Member>, m: Member) {
    m.firebaseUid !in rows && m.email !in Emails(rows)
  }

  /** The table after a committed insert of `m`: the row with the next id
      when both unique columns are free, otherwise nothing changes. */
  function AfterInsert(rows: map<string, Member>, nextId: int, m: Member): (map<string, Member>, int) {
    if Admits(rows, m) then (rows[m.firebaseUid := m.(id := Some(nextId))], nextId + 1)
    else (rows, nextId)
  }

  /** The table after a concurrent caller's insert, if there was one, that
      committed between this call's lookup and its save. */
  function AfterRival(rows: map<string, Member>, nextId: int, rival: Option<Member>): (map<string, Member>, int) {
    if rival.None? then (rows, nextId) else AfterInsert(rows, nextId, rival.value)
  }

  /** Inserts keep the constraints, add exactly the new row and leave every
      other row as it was. */
  lemma InsertKeepsInvariant(rows: map<string, Member>, nextId: int, m: Member)
    requires TableInvariant(rows, nextId)
    ensures var (rows', nextId') := AfterInsert(rows, nextId, m);
            && TableInvariant(rows', nextId')
            && rows.Keys <= rows'.Keys
            && (forall u | u in rows :: rows'[u] == rows[u])
            && rows'.Keys - rows.Keys <= {m.firebaseUid}
  {
    if Admits(rows, m) {
      var row := m.(id := Some(nextId));
      var rows' := rows[m.firebaseUid := row];
      forall u | u in rows'
        ensures rows'[u].firebaseUid == u && rows'[u].id.Some? && 1 <= rows'[u].id.value < nextId + 1
      {
        if u != m.firebaseUid {
          assert rows'[u] == rows[u];
        }
      }
      forall u, v | u in rows' && v in rows' && u != v
        ensures rows'[u].email != rows'[v].email && rows'[u].id != rows'[v].id
      {
        if u == m.firebaseUid {
          assert rows'[v] == rows[v] && rows[v].email in Emails(rows);
        } else if v == m.firebaseUid {
          assert rows'[u] == rows[u] && rows[u].email in Emails(rows);
        }
      }
    }
  }

  lemma EmailsAfterInsert(rows: map<string, Member>, m: Member, row: Member)
    requires m.firebaseUid !in rows && row.email == m.email
    ensures Emails(rows[m.firebaseUid := row]) == Emails(rows) + {m.email}
  {
    var rows' := rows[m.firebaseUid := row];
    forall e | e in Emails(rows')
      ensures e in Emails(rows) + {m.email}
    {
      var u :| u in rows' && rows'[u].email == e;
      if u != m.firebaseUid {
        assert rows[u].email == e;
      }
    }
    forall e | e in Emails(rows)
      ensures e in Emails(rows')
    {
      var u :| u in rows && rows[u].email == e;
      assert rows'[u] == rows[u];
    }
    assert rows'[m.firebaseUid].email == m.email;
  }

  /** The `members` table behind `MemberRepository`: rows keyed by
      `firebase_uid`, the set of emails in use, and the identity counter. */
  class MemberStore {
    var rows: map<string, Member>
    var emails: set<string>
    var nextId: int

    ghost predicate Valid()
      reads this
    {
      TableInvariant(rows, nextId) && emails == Emails(rows)
    }

    constructor ()
      ensures Valid() && rows == map[] && nextId == 1
    {
      rows, emails, nextId := map[], {}, 1;
    }

    /** `findByFirebaseUid`: a lookup that writes nothing. */
    method FindByFirebaseUid(firebaseUid: string) returns (r: Option<Member>)
      ensures r.Some? <==> firebaseUid in rows
      ensures r.Some? ==> r.value == rows[firebaseUid]
      ensures Valid() && r.Some? ==> r.value.firebaseUid == firebaseUid
    {
      if firebaseUid in rows {
        r := Some(rows[firebaseUid]);
      } else {
        r := None;
      }
    }

    /** `save` of a new (id-less) Member: the stored row, with its id, or a
        DataIntegrityViolationException when either unique column is taken. */
    method Save(m: Member) returns (r: Result<Member, JavaException>)
      requires Valid() && m.id.None?
      modifies this
      ensures Valid()
      ensures (rows, nextId) == AfterInsert(old(rows), old(nextId), m)
      ensures old(Admits(rows, m)) ==> r == Success(m.(id := Some(old(nextId))))
      ensures !old(Admits(rows, m)) ==> r == Failure(IntegrityViolation())
    {
      InsertKeepsInvariant(rows, nextId, m);
      if m.firebaseUid !in rows && m.email !in emails {
        var row := m.(id := Some(nextId));
        EmailsAfterInsert(rows, m, row);
        rows := rows[m.firebaseUid := row];
        emails := emails + {m.email};
        nextId := nextId + 1;
        r := Success(row);
      } else {
        r := Failure(IntegrityViolation());
      }
    }

    /** Another caller's transaction commits its own insert of `rival`
        (a new Member), if there is one. */
    method ConcurrentInsert(rival: Option<Member>)
      requires Valid() && (rival.Some? ==> rival.value.id.None?)
      modifies this
      ensures Valid()
      ensures (rows, nextId) == AfterRival(old(rows), old(nextId), rival)
    {
      if rival.Some? {
        var _ := Save(rival.value);
      }
    }
  }

  /** The exception a violated unique constraint raises. Its message is the
      driver's text, which is not modelled. */
  function IntegrityViolation(): JavaException {
    JavaException(DataIntegrityViolation, None)
  }

  const NO_EMAIL: string := "Firebase token does not contain email"
  const MEMBER_NOT_FOUND: string := "Member not found"

  /** The email is usable: present and not blank. */
  predicate HasEmail(email: Option<string>) {
    email.Some? && !IsBlank(email.value)
  }

  /** Only separators: Java's split leaves no piece at all. */
  predicate OnlyAts(email: string) {
    email != [] && forall k :: 0 <= k < |email| ==> email[k] == '@'
  }

  /** `defaultName`: `email.split("@")[0]`, the email's local part. */
  function DefaultName(email: string): (r: Result<string, JavaException>)
    // the text before the first '@', or the whole email when it has none
    ensures r.Success? ==>
              && '@' !in r.value
              && StartsWith(email, r.value)
              && (r.value == email || email[|r.value|] == '@')
    // which exists unless the email is nothing but '@'s
    ensures r.Failure? <==> OnlyAts(email)
    ensures r.Failure? ==> r.error.kind == ArrayIndexOutOfBounds
  {
    DefaultNameIsLocalPart(email);
    FirstPiece(email, '@')
  }

  lemma DefaultNameIsLocalPart(email: string)
    ensures var r := FirstPiece(email, '@');
            && (r.Success? ==>
                  && '@' !in r.value
                  && StartsWith(email, r.value)
                  && (r.value == email || email[|r.value|] == '@'))
            && (r.Failure? <==> OnlyAts(email))
            && (r.Failure? ==> r.error.kind == ArrayIndexOutOfBounds)
  {
    FirstPieceIsPrefix(email, '@');
    if '@' in email {
      var i := IndexOf(email, '@');
      if exists k :: 0 <= k < |email| && email[k] != '@' {
        assert email[..i] == email[..|email[..i]|];
      } else {
        assert email[i] == '@';
      }
    }
  }

  /** The name a new row gets: the provider's name when it is non-blank,
      otherwise the email's local part. */
  function FinalName(email: string, name: Option<string>): (r: Result<string, JavaException>)
    ensures name.Some? && !IsBlank(name.value) ==> r == Success(name.value)
    ensures (name.None? || IsBlank(name.value)) ==> r == DefaultName(email)
    ensures r.Failure? <==> (name.None? || IsBlank(name.value)) && OnlyAts(email)
  {
    if name.Some? && !IsBlank(name.value) then Success(name.value) else DefaultName(email)
  }

  /** `findOrCreate`'s result: the member and whether this call reported it
      as new. */
  datatype MemberWithStatus = MemberWithStatus(member: Member, isNewMember: bool)

  class MemberService {
    const memberRepository: MemberStore

    constructor (memberRepository: MemberStore)
      ensures this.memberRepository == memberRepository
    {
      this.memberRepository := memberRepository;
    }

    /** `findOrCreate(firebaseUid, email, name)`. `rival` is the row another
        caller's transaction commits between this call's lookup and its save
        (None when there is no race). */
    method FindOrCreate(firebaseUid: string, email: Option<string>, name: Option<string>, rival: Option<Member>)
      returns (r: Result<MemberWithStatus, JavaException>)
      requires memberRepository.Valid()
      requires rival.Some? ==> rival.value.id.None?
      modifies memberRepository
      ensures memberRepository.Valid()
      // a null or blank email is refused before the store is read
      ensures !HasEmail(email) ==>
                r == Failure(UnauthorizedException(NO_EMAIL)) && unchanged(memberRepository)
      // an existing row is returned as not new, and nothing is written
      ensures HasEmail(email) && firebaseUid in old(memberRepository.rows) ==>
                r == Success(MemberWithStatus(old(memberRepository.rows)[firebaseUid], false))
                && unchanged(memberRepository)
      // otherwise the result is createSafely's, flagged as new
      ensures HasEmail(email) && firebaseUid !in old(memberRepository.rows) ==>
                var (rows1, next1) := AfterRival(old(memberRepository.rows), old(memberRepository.nextId), rival);
                Created(firebaseUid, email.value, name, rows1, next1,
                        memberRepository.rows, memberRepository.nextId, r, true)
      // whatever happened: the member returned is the row stored for the uid
      ensures r.Success? ==>
                firebaseUid in memberRepository.rows && r.value.member == memberRepository.rows[firebaseUid]
      // and it is reported as new exactly when the lookup missed
      ensures r.Success? ==> (r.value.isNewMember <==> firebaseUid !in old(memberRepository.rows))
      // rows are only ever added
      ensures old(memberRepository.rows).Keys <= memberRepository.rows.Keys
      ensures forall u | u in old(memberRepository.rows) :: memberRepository.rows[u] == old(memberRepository.rows)[u]
    {
      if email.None? || IsBlank(email.value) {
        return Failure(UnauthorizedException(NO_EMAIL));
      }
      var found := memberRepository.FindByFirebaseUid(firebaseUid);
      if found.Some? {
        return Success(MemberWithStatus(found.value, false));
      }
      ghost var rows0, next0 := memberRepository.rows, memberRepository.nextId;
      if rival.Some? {
        InsertKeepsInvariant(rows0, next0, rival.value);
      }
      memberRepository.ConcurrentInsert(rival);
      ghost var rows1, next1 := memberRepository.rows, memberRepository.nextId;
      var created := CreateSafely(firebaseUid, email.value, name);
      if created.Failure? {
        return Failure(created.error);
      }
      r := Success(MemberWithStatus(created.value, true));
    }

    /** `createSafely`: save a new row; on a unique-constraint violation,
        read the row back by uid, and rethrow the violation if there is none. */
    method CreateSafely(firebaseUid: string, email: string, name: Option<string>)
      returns (r: Result<Member, JavaException>)
      requires memberRepository.Valid()
      modifies memberRepository
      ensures memberRepository.Valid()
      ensures Created(firebaseUid, email, name, old(memberRepository.rows), old(memberRepository.nextId),
                      memberRepository.rows, memberRepository.nextId,
                      if r.Success? then Success(MemberWithStatus(r.value, true)) else Failure(r.error), true)
      ensures r.Success? ==> firebaseUid in memberRepository.rows && r.value == memberRepository.rows[firebaseUid]
      ensures old(memberRepository.rows).Keys <= memberRepository.rows.Keys
      ensures forall u | u in old(memberRepository.rows) :: memberRepository.rows[u] == old(memberRepository.rows)[u]
    {
      InsertKeepsInvariant(memberRepository.rows, memberRepository.nextId,
                           NewMember(email, if FinalName(email, name).Success? then FinalName(email, name).value else "", firebaseUid));
      var finalName := FinalName(email, name);
      if finalName.Failure? {
        return Failure(finalName.error);
      }
      var saved := memberRepository.Save(NewMember(email, finalName.value, firebaseUid));
      if saved.Success? {
        return saved;
      }
      if saved.error.kind == DataIntegrityViolation {
        var reread := memberRepository.FindByFirebaseUid(firebaseUid);
        if reread.Some? {
          return Success(reread.value);
        }
      }
      return Failure(saved.error);
    }

    /** `getByFirebaseUid`: the stored row, or Unauthorized "Member not
        found"; a read that never writes. */
    method GetByFirebaseUid(firebaseUid: string) returns (r: Result<Member, JavaException>)
      ensures firebaseUid in memberRepository.rows ==> r == Success(memberRepository.rows[firebaseUid])
      ensures firebaseUid !in memberRepository.rows ==> r == Failure(UnauthorizedException(MEMBER_NOT_FOUND))
    {
      var found := memberRepository.FindByFirebaseUid(firebaseUid);
      if found.Some? {
        r := Success(found.value);
      } else {
        r := Failure(UnauthorizedException(MEMBER_NOT_FOUND));
      }
    }
  }

  /** What `createSafely` does to a table in state (rows, nextId), ending in
      (rows', nextId') with result `r` (the row wrapped with `isNew`):
      - the name cannot be derived: that exception, nothing written;
      - both unique columns free: the new row, with the next id;
      - the uid is taken (someone inserted first): that row, nothing written;
      - only the email is taken: the integrity violation, nothing written. */
  ghost predicate Created(firebaseUid: string, email: string, name: Option<string>,
                          rows: map<string, Member>, nextId: int,
                          rows': map<string, Member>, nextId': int,
                          r: Result<MemberWithStatus, JavaException>, isNew: bool)
  {
    var fn := FinalName(email, name);
    if fn.Failure? then
      r == Failure(fn.error) && rows' == rows && nextId' == nextId
    else
      var own := NewMember(email, fn.value, firebaseUid);
      if Admits(rows, own) then
        var row := own.(id := Some(nextId));
        r == Success(MemberWithStatus(row, isNew)) && rows' == rows[firebaseUid := row] && nextId' == nextId + 1
      else if firebaseUid in rows then
        r == Success(MemberWithStatus(rows[firebaseUid], isNew)) && rows' == rows && nextId' == nextId
      else
        r == Failure(IntegrityViolation()) && rows' == rows && nextId' == nextId
  }

  /** Sequential idempotence: a second findOrCreate for the same uid returns
      the same member, flagged as not new. */
  method FindOrCreateTwice(service: MemberService, firebaseUid: string, email: Option<string>, name: Option<string>)
    returns (first: Result<MemberWithStatus, JavaException>, second: Result<MemberWithStatus, JavaException>)
    requires service.memberRepository.Valid()
    modifies service.memberRepository
    ensures first.Success? ==>
              && second.Success?
              && second.value.member == first.value.member
              && !second.value.isNewMember
    ensures first.Success? ==> (first.value.isNewMember <==> firebaseUid !in old(service.memberRepository.rows))
  {
    first := service.FindOrCreate(firebaseUid, email, name, None);
    second := service.FindOrCreate(firebaseUid, email, name, None);
  }
}
