/**
 * The user and proposal repositories, as in-memory tables. A query that
 * finds no row answers `Missing` (Go's `nil, nil`); a call whose `Call`
 * value is in the store's `failing` set answers `Failed` (a non-nil Go
 * error) and changes nothing.
 */
module Repositories {
  import opened Wrappers
  import opened Models

  /** A repository call, named by its operation and its argument. */
  datatype Call =
    | UserByTelegramId(telegramId: int)
    | UserByNickname(nickname: string)
    | UserById(id: int)
    | UserUpdate(user: UserRecord)
    | UserCreate(user: UserRecord)
    | ProposalById(id: int)
    | ProposalsByNickname(nickname: string)
    | ProposalUpdate(proposal: Proposal)
    | ProposalCreate(proposal: Proposal)

  /** The first element that `matches` accepts, as a single-row `Select` returns it. */
  function First<T>(rows: seq<T>, matches: T -> bool): (r: Option<T>)
    ensures r.Some? ==> r.value in rows && matches(r.value)
    ensures r.None? <==> forall i :: 0 <= i < |rows| ==> !matches(rows[i])
    decreases |rows|
  {
    if rows == [] then None
    else if matches(rows[0]) then Some(rows[0])
    else First(rows[1..], matches)
  }

  /** What `First` finds is the earliest element `matches` accepts. */
  lemma {:induction false} FirstIsEarliest<T>(rows: seq<T>, matches: T -> bool)
    ensures First(rows, matches).Some? ==>
      exists i :: 0 <= i < |rows| && rows[i] == First(rows, matches).value && forall k :: 0 <= k < i ==> !matches(rows[k])
    decreases |rows|
  {
    if rows != [] && !matches(rows[0]) {
      var r := First(rows[1..], matches);
      FirstIsEarliest(rows[1..], matches);
      if r.Some? {
        var i :| 0 <= i < |rows[1..]| && rows[1..][i] == r.value && forall k :: 0 <= k < i ==> !matches(rows[1..][k]);
        assert rows[i + 1] == r.value;
        forall k | 0 <= k < i + 1
          ensures !matches(rows[k])
        {
          if k > 0 {
            assert rows[k] == rows[1..][k - 1];
          }
        }
      }
    }
  }

  /** The elements that `matches` accepts, in table order. */
  function Filter<T(!new)>(rows: seq<T>, matches: T -> bool): (r: seq<T>)
    ensures |r| <= |rows|
    ensures forall x :: x in r <==> x in rows && matches(x)
    decreases |rows|
  {
    if rows == [] then []
    else
      var init := Filter(rows[..|rows| - 1], matches);
      var last := rows[|rows| - 1];
      assert rows == rows[..|rows| - 1] + [last];
      if matches(last) then init + [last] else init
  }

  // ---------------------------------------------------------------- users

  predicate HasUserId(rows: seq<UserRecord>, id: int) {
    exists i :: 0 <= i < |rows| && rows[i].id == id
  }

  /** `UPDATE ... WHERE id = u.id`: every row with that primary key becomes `u`. */
  function ReplaceUser(rows: seq<UserRecord>, u: UserRecord): (r: seq<UserRecord>)
    ensures |r| == |rows|
    ensures forall i :: 0 <= i < |rows| ==> r[i] == (if rows[i].id == u.id then u else rows[i])
    decreases |rows|
  {
    if rows == [] then []
    else [if rows[0].id == u.id then u else rows[0]] + ReplaceUser(rows[1..], u)
  }

  /** Writing the same row twice leaves the table as writing it once. */
  lemma UpdateIdempotent(t: UserTable, u: UserRecord)
    ensures t.Updated(u).Updated(u) == t.Updated(u)
  {
    if UserUpdate(u) !in t.failing {
      var once := ReplaceUser(t.rows, u);
      assert ReplaceUser(once, u) == once;
    }
  }

  /** Primary keys are unique and below the next key the sequence hands out. */
  predicate UserKeys(rows: seq<UserRecord>, nextId: int) {
    (forall i :: 0 <= i < |rows| ==> rows[i].id < nextId) &&
    (forall i, j :: 0 <= i < j < |rows| ==> rows[i].id != rows[j].id)
  }

  /**
   * The `*models.User` a single-row user query hands back. A query error
   * still returns the pointer to the zero user it was scanning into, which
   * callers that only log the error go on to use; "no such row" is nil.
   */
  function UserPointer(r: Lookup<UserRecord>): (u: Option<UserRecord>)
    ensures u.None? <==> r.Missing?
    ensures r.Found? ==> u == Some(r.value)
    ensures r.Failed? ==> u == Some(ZeroUser)
  {
    match r
    case Found(v) => Some(v)
    case Failed => Some(ZeroUser)
    case Missing => None
  }

  /** The `users` table as a value: its rows, the next key and the calls that fail on it. */
  datatype UserTable = UserTable(rows: seq<UserRecord>, nextId: int, failing: set<Call>) {

    /** `GetOneByTelegramID`. */
    function ByTelegramId(telegramId: int): (r: Lookup<UserRecord>)
      ensures r.Failed? <==> UserByTelegramId(telegramId) in failing
      ensures r.Found? ==> r.value in rows && r.value.telegramId == telegramId
      ensures r.Missing? <==> !r.Failed? && forall i :: 0 <= i < |rows| ==> rows[i].telegramId != telegramId
    {
      if UserByTelegramId(telegramId) in failing then Failed
      else ToLookup(First(rows, (u: UserRecord) => u.telegramId == telegramId))
    }

    /** `GetOneByTelegramNickname`. */
    function ByNickname(nickname: string): (r: Lookup<UserRecord>)
      ensures r.Failed? <==> UserByNickname(nickname) in failing
      ensures r.Found? ==> r.value in rows && r.value.telegramNickname == nickname
      ensures r.Found? ==> exists i :: (0 <= i < |rows| && rows[i] == r.value &&
                                        forall k :: 0 <= k < i ==> rows[k].telegramNickname != nickname)
      ensures r.Missing? <==> !r.Failed? && forall i :: 0 <= i < |rows| ==> rows[i].telegramNickname != nickname
    {
      if UserByNickname(nickname) in failing then Failed
      else
        var named := (u: UserRecord) => u.telegramNickname == nickname;
        FirstIsEarliest(rows, named);
        ToLookup(First(rows, named))
    }

    /** `GetOneByID`. */
    function ById(id: int): (r: Lookup<UserRecord>)
      ensures r.Failed? <==> UserById(id) in failing
      ensures r.Found? ==> r.value in rows && r.value.id == id
      ensures r.Missing? <==> !r.Failed? && !HasUserId(rows, id)
    {
      if UserById(id) in failing then Failed
      else ToLookup(First(rows, (u: UserRecord) => u.id == id))
    }

    /**
     * The table after `Update(u)`: `u` is written over the row with its key
     * unless the call fails; a key with no row changes nothing.
     */
    function Updated(u: UserRecord): UserTable {
      if UserUpdate(u) in failing then this else this.(rows := ReplaceUser(rows, u))
    }

    /** What `Update(u)` answers: an error, or the row selected again by its key. */
    function UpdateAnswer(u: UserRecord): (r: Lookup<UserRecord>)
      ensures r.Failed? <==> UserUpdate(u) in failing
      ensures r.Found? ==> r.value == u
      ensures r.Missing? <==> !r.Failed? && !HasUserId(rows, u.id)
    {
      if UserUpdate(u) in failing then Failed
      else if HasUserId(rows, u.id) then Found(u)
      else Missing
    }

    /** The table after `Create(u)`: `u` is inserted under the next key unless the call fails. */
    function Created(u: UserRecord): UserTable {
      if UserCreate(u) in failing then this
      else this.(rows := rows + [u.(id := nextId)], nextId := nextId + 1)
    }

    /** What `Create(u)` answers: an error, or the inserted row. */
    function CreateAnswer(u: UserRecord): (r: Lookup<UserRecord>)
      ensures r.Failed? <==> UserCreate(u) in failing
      ensures !r.Failed? ==> r == Found(u.(id := nextId))
    {
      if UserCreate(u) in failing then Failed else Found(u.(id := nextId))
    }
  }

  /** The user repository; `Table()` is what its queries see. */
  class UserStore {
    var rows: seq<UserRecord>
    var nextId: int
    const failing: set<Call>

    constructor (rows0: seq<UserRecord>, nextId0: int, failing0: set<Call>)
      ensures rows == rows0 && nextId == nextId0 && failing == failing0
    {
      rows := rows0;
      nextId := nextId0;
      failing := failing0;
    }

    function Table(): UserTable
      reads this
    {
      UserTable(rows, nextId, failing)
    }

    predicate Valid()
      reads this
    {
      UserKeys(rows, nextId)
    }

    function ByTelegramId(telegramId: int): Lookup<UserRecord>
      reads this
    {
      Table().ByTelegramId(telegramId)
    }

    function ById(id: int): Lookup<UserRecord>
      reads this
    {
      Table().ById(id)
    }

    /**
     * `Update`: writes `u` over the row with its key and selects it again; a
     * key with no row updates nothing, raises no error and selects nothing.
     */
    method Update(u: UserRecord) returns (r: Lookup<UserRecord>)
      modifies this`rows
      ensures UserUpdate(u) in failing ==> r == Failed && rows == old(rows)
      ensures UserUpdate(u) !in failing ==>
        rows == ReplaceUser(old(rows), u) &&
        r == (if HasUserId(old(rows), u.id) then Found(u) else Missing)
      ensures Table() == old(Table()).Updated(u) && r == old(Table()).UpdateAnswer(u)
      ensures old(Valid()) ==> Valid()
    {
      if UserUpdate(u) in failing {
        return Failed;
      }
      rows := ReplaceUser(rows, u);
      r := ToLookup(First(rows, (x: UserRecord) => x.id == u.id));
    }

    /** `Create`: inserts `u` under the next key and answers the inserted row. */
    method Create(u: UserRecord) returns (r: Lookup<UserRecord>)
      modifies this`rows, this`nextId
      ensures UserCreate(u) in failing ==> r == Failed && rows == old(rows) && nextId == old(nextId)
      ensures UserCreate(u) !in failing ==>
        r == Found(u.(id := old(nextId))) && rows == old(rows) + [r.value] && nextId == old(nextId) + 1
      ensures Table() == old(Table()).Created(u) && r == old(Table()).CreateAnswer(u)
      ensures old(Valid()) ==> Valid()
    {
      if UserCreate(u) in failing {
        return Failed;
      }
      var row := u.(id := nextId);
      rows := rows + [row];
      nextId := nextId + 1;
      r := Found(row);
    }
  }

  // ------------------------------------------------------------ proposals

  predicate HasProposalId(rows: seq<Proposal>, id: int) {
    exists i :: 0 <= i < |rows| && rows[i].id == id
  }

  function ReplaceProposal(rows: seq<Proposal>, p: Proposal): (r: seq<Proposal>)
    ensures |r| == |rows|
    ensures forall i :: 0 <= i < |rows| ==> r[i] == (if rows[i].id == p.id then p else rows[i])
    decreases |rows|
  {
    if rows == [] then []
    else [if rows[0].id == p.id then p else rows[0]] + ReplaceProposal(rows[1..], p)
  }

  predicate ProposalKeys(rows: seq<Proposal>, nextId: int) {
    (forall i :: 0 <= i < |rows| ==> rows[i].id < nextId) &&
    (forall i, j :: 0 <= i < j < |rows| ==> rows[i].id != rows[j].id)
  }

  predicate ByCreation(s: seq<Proposal>) {
    forall i, j :: 0 <= i < j < |s| ==> s[i].createdAt <= s[j].createdAt
  }

  /** Puts `p` into an ordered list after every row created no later than it. */
  function InsertByCreation(p: Proposal, s: seq<Proposal>): (r: seq<Proposal>)
    requires ByCreation(s)
    ensures ByCreation(r)
    ensures multiset(r) == multiset(s) + multiset{p}
    decreases |s|
  {
    if s == [] then [p]
    else if p.createdAt < s[0].createdAt then [p] + s
    else
      var rest := InsertByCreation(p, s[1..]);
      InsertBehind(p, s, rest);
      [s[0]] + rest
  }

  /** Putting `p` into the tail of `s` keeps `s[0]` first. */
  lemma InsertBehind(p: Proposal, s: seq<Proposal>, rest: seq<Proposal>)
    requires s != [] && ByCreation(s) && s[0].createdAt <= p.createdAt
    requires ByCreation(rest) && multiset(rest) == multiset(s[1..]) + multiset{p}
    ensures ByCreation([s[0]] + rest)
    ensures multiset([s[0]] + rest) == multiset(s) + multiset{p}
  {
    assert s == [s[0]] + s[1..];
    forall k | 0 <= k < |rest|
      ensures s[0].createdAt <= rest[k].createdAt
    {
      assert rest[k] in multiset(s[1..]) + multiset{p};
      if rest[k] != p {
        assert rest[k] in s[1..];
      }
    }
  }

  /** `ORDER BY created_at ASC`: one admissible order of the selected rows. */
  function SortByCreation(s: seq<Proposal>): (r: seq<Proposal>)
    ensures ByCreation(r)
    ensures multiset(r) == multiset(s)
    decreases |s|
  {
    if s == [] then []
    else
      assert s == s[..|s| - 1] + [s[|s| - 1]];
      InsertByCreation(s[|s| - 1], SortByCreation(s[..|s| - 1]))
  }

  /**
   * The row `Create(p)` inserts: `p` under key `id`, with the `status`
   * column's default `created` when the draft leaves the status empty.
   */
  function Inserted(p: Proposal, id: int): (r: Proposal)
    ensures r.id == id
    ensures r.status == (if p.status == NoStatus then Created else p.status)
    ensures r.(id := p.id, status := p.status) == p
  {
    p.(id := id, status := if p.status == NoStatus then Created else p.status)
  }

  /** The `proposals` table as a value. */
  datatype ProposalTable = ProposalTable(rows: seq<Proposal>, nextId: int, failing: set<Call>) {

    /** `GetOneByID`. */
    function ById(id: int): (r: Lookup<Proposal>)
      ensures r.Failed? <==> ProposalById(id) in failing
      ensures r.Found? ==> r.value in rows && r.value.id == id
      ensures r.Missing? <==> !r.Failed? && !HasProposalId(rows, id)
    {
      if ProposalById(id) in failing then Failed
      else ToLookup(First(rows, (p: Proposal) => p.id == id))
    }

    /** `GetManyByNomineeNickname`: every proposal for the nickname, oldest first. */
    function ByNomineeNickname(nickname: string): (r: Option<seq<Proposal>>)
      ensures r.None? <==> ProposalsByNickname(nickname) in failing
      ensures r.Some? ==> ByCreation(r.value)
      ensures r.Some? ==> forall p :: p in r.value <==> p in rows && p.nomineeTelegramNickname == nickname
    {
      if ProposalsByNickname(nickname) in failing then None
      else
        var selected := Filter(rows, (p: Proposal) => p.nomineeTelegramNickname == nickname);
        var sorted := SortByCreation(selected);
        assert forall p :: p in sorted <==> p in selected by {
          forall p ensures p in sorted <==> p in selected {
            assert p in sorted <==> p in multiset(sorted);
            assert p in selected <==> p in multiset(selected);
          }
        }
        Some(sorted)
    }

    /** The table after `Update(p)`. */
    function Updated(p: Proposal): ProposalTable {
      if ProposalUpdate(p) in failing then this else this.(rows := ReplaceProposal(rows, p))
    }

    /** The table after `Create(p)`. */
    function Created(p: Proposal): ProposalTable {
      if ProposalCreate(p) in failing then this
      else this.(rows := rows + [Inserted(p, nextId)], nextId := nextId + 1)
    }

    /** What `Create(p)` answers: an error, or the inserted row. */
    function CreateAnswer(p: Proposal): (r: Lookup<Proposal>)
      ensures r.Failed? <==> ProposalCreate(p) in failing
      ensures !r.Failed? ==> r == Found(Inserted(p, nextId))
    {
      if ProposalCreate(p) in failing then Failed else Found(Inserted(p, nextId))
    }
  }

  /** The proposal repository. */
  class ProposalStore {
    var rows: seq<Proposal>
    var nextId: int
    const failing: set<Call>

    constructor (rows0: seq<Proposal>, nextId0: int, failing0: set<Call>)
      ensures rows == rows0 && nextId == nextId0 && failing == failing0
    {
      rows := rows0;
      nextId := nextId0;
      failing := failing0;
    }

    function Table(): ProposalTable
      reads this
    {
      ProposalTable(rows, nextId, failing)
    }

    predicate Valid()
      reads this
    {
      ProposalKeys(rows, nextId)
    }

    /** `Update`, with the go-pg answers of the user store's `Update`. */
    method Update(p: Proposal) returns (r: Lookup<Proposal>)
      modifies this`rows
      ensures ProposalUpdate(p) in failing ==> r == Failed && rows == old(rows)
      ensures ProposalUpdate(p) !in failing ==>
        rows == ReplaceProposal(old(rows), p) &&
        r == (if HasProposalId(old(rows), p.id) then Found(p) else Missing)
      ensures Table() == old(Table()).Updated(p)
      ensures old(Valid()) ==> Valid()
    {
      if ProposalUpdate(p) in failing {
        return Failed;
      }
      rows := ReplaceProposal(rows, p);
      r := ToLookup(First(rows, (x: Proposal) => x.id == p.id));
    }

    /**
     * `Create`: inserts `p` under the next key, and go-pg writes the key and
     * the defaulted columns back; it answers the inserted row.
     */
    method Create(p: Proposal) returns (r: Lookup<Proposal>)
      modifies this`rows, this`nextId
      ensures ProposalCreate(p) in failing ==> r == Failed && rows == old(rows) && nextId == old(nextId)
      ensures ProposalCreate(p) !in failing ==>
        r == Found(Inserted(p, old(nextId))) && rows == old(rows) + [r.value] && nextId == old(nextId) + 1
      ensures Table() == old(Table()).Created(p) && r == old(Table()).CreateAnswer(p)
      ensures old(Valid()) ==> Valid()
    {
      if ProposalCreate(p) in failing {
        return Failed;
      }
      var row := Inserted(p, nextId);
      rows := rows + [row];
      nextId := nextId + 1;
      r := Found(row);
    }
  }
}
