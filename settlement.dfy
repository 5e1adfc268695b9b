/**
 * The proposal state service: a daily pass that settles every proposal
 * whose voting has finished, writes the results back, opens a guest
 * account for each approved nominee and tells the people concerned.
 */
module ProposalStateService {
  import opened Wrappers
  import opened Models
  import opened Repositories
  import opened VoteServices
  import opened Transport

  // ----------------------------------------------------------- thresholds

  /** A configured share p/q, taken exactly. */
  datatype Fraction = Fraction(p: nat, q: nat)

  type Ratio = f: Fraction | f.q > 0 witness Fraction(0, 1)

  /** The three shares of `ProposalStateServiceConfig`. */
  datatype Config = Config(quorum: Ratio, minYesPercentage: Ratio, yesVotesToOvercomeNo: Ratio)

  const Half: Ratio := Fraction(1, 2)

  /**
   * `int(math.Round(float64(n) * f))`: the integer nearest to n * p / q,
   * halves rounded up, which is `math.Round` on a non-negative value.
   */
  function Round(n: nat, f: Ratio): (r: nat)
    ensures 2 * f.q * r <= 2 * n * f.p + f.q < 2 * f.q * (r + 1)
  {
    var d := 2 * f.q;
    var x := 2 * n * f.p + f.q;
    assert x == d * (x / d) + x % d;
    x / d
  }

  // ------------------------------------------------------------- counting

  const Yes := "yes"
  const No := "no"

  /** How many votes chose exactly `option`. */
  function Count(votes: seq<Vote>, option: string): (c: nat)
    ensures c <= |votes|
    decreases |votes|
  {
    if votes == [] then 0
    else Count(votes[..|votes| - 1], option) + (if votes[|votes| - 1].option == option then 1 else 0)
  }

  /** The (yes, no) pair `calculateYesAndNoVotes` answers. */
  function Tally(votes: seq<Vote>, yesVotesToOvercomeNo: Ratio): (nat, nat) {
    var yes := Count(votes, Yes);
    var no := Count(votes, No);
    (yes, if yes >= Round(|votes|, yesVotesToOvercomeNo) && no > 0 then no - 1 else no)
  }

  /** No vote is both a yes and a no. */
  lemma {:induction false} YesAndNoDisjoint(votes: seq<Vote>)
    ensures Count(votes, Yes) + Count(votes, No) <= |votes|
    decreases |votes|
  {
    if votes != [] {
      YesAndNoDisjoint(votes[..|votes| - 1]);
    }
  }

  /**
   * Yes is the number of "yes" votes; at most one "no" vote is cancelled,
   * and one is exactly when there is one and the yes votes reach the
   * `YesVotesToOvercomeNo` share of all votes.
   */
  lemma CancelsAtMostOneNo(votes: seq<Vote>, f: Ratio)
    ensures Tally(votes, f).0 == Count(votes, Yes)
    ensures Tally(votes, f).1 <= Count(votes, No) <= Tally(votes, f).1 + 1
    ensures Tally(votes, f).1 < Count(votes, No) <==>
      Count(votes, No) > 0 && Count(votes, Yes) >= Round(|votes|, f)
    ensures Tally(votes, f).0 + Tally(votes, f).1 <= |votes|
  {
    YesAndNoDisjoint(votes);
  }

  /** A vote for any other option changes neither count, though it is one more vote. */
  lemma OtherOptionsIgnored(votes: seq<Vote>, v: Vote)
    requires v.option != Yes && v.option != No
    ensures Count(votes + [v], Yes) == Count(votes, Yes)
    ensures Count(votes + [v], No) == Count(votes, No)
    ensures |votes + [v]| == |votes| + 1
  {
    assert (votes + [v])[..|votes|] == votes;
  }

  /** The expectations of the counting tests, at a share of one half. */
  lemma TallyExamples()
    ensures Tally([Vote(1, Yes), Vote(2, Yes)], Half) == (2, 0)
    ensures Tally([Vote(1, No), Vote(2, No)], Half) == (0, 2)
    ensures Tally([Vote(1, Yes), Vote(2, No), Vote(3, No), Vote(4, No)], Half) == (1, 3)
    ensures Tally([Vote(1, Yes), Vote(2, Yes), Vote(3, No)], Half) == (2, 0)
    ensures Tally([Vote(1, Yes), Vote(2, No), Vote(3, No)], Half) == (1, 2)
  {
    assert Round(2, Half) == 1 && Round(3, Half) == 2 && Round(4, Half) == 2;
    var a := [Vote(1, Yes), Vote(2, Yes)];
    assert a[..1] == [a[0]] && [a[0]][..0] == [];
    assert Count(a, Yes) == 2 && Count(a, No) == 0;
    var b := [Vote(1, No), Vote(2, No)];
    assert b[..1] == [b[0]] && [b[0]][..0] == [];
    assert Count(b, Yes) == 0 && Count(b, No) == 2;
    var c := [Vote(1, Yes), Vote(2, No), Vote(3, No), Vote(4, No)];
    assert c[..3] == [c[0], c[1], c[2]] && c[..3][..2] == [c[0], c[1]] && c[..3][..2][..1] == [c[0]];
    assert [c[0]][..0] == [];
    assert Count(c[..3][..2], Yes) == 1 && Count(c[..3][..2], No) == 1;
    assert Count(c, Yes) == 1 && Count(c, No) == 3;
    var d := [Vote(1, Yes), Vote(2, Yes), Vote(3, No)];
    assert d[..2] == [d[0], d[1]] && d[..2][..1] == [d[0]] && [d[0]][..0] == [];
    assert Count(d, Yes) == 2 && Count(d, No) == 1;
    var e := [Vote(1, Yes), Vote(2, No), Vote(3, No)];
    assert e[..2] == [e[0], e[1]] && e[..2][..1] == [e[0]] && [e[0]][..0] == [];
    assert Count(e, Yes) == 1 && Count(e, No) == 2;
  }

  /** `calculateYesAndNoVotes`. */
  method CalculateYesAndNoVotes(votes: seq<Vote>, yesVotesToOvercomeNo: Ratio) returns (yes: nat, no: nat)
    ensures (yes, no) == Tally(votes, yesVotesToOvercomeNo)
  {
    yes, no := 0, 0;
    for i := 0 to |votes|
      invariant yes == Count(votes[..i], Yes)
      invariant no == Count(votes[..i], No)
    {
      assert votes[..i + 1][..i] == votes[..i];
      if votes[i].option == Yes {
        yes := yes + 1;
      } else if votes[i].option == No {
        no := no + 1;
      }
    }
    assert votes[..|votes|] == votes;
    if yes >= Round(|votes|, yesVotesToOvercomeNo) && no > 0 {
      no := no - 1;
    }
  }

  // --------------------------------------------------------------- voters

  /** The users behind the votes, in vote order; a voter whose lookup fails or finds nobody is dropped. */
  function VotedUsers(votes: seq<Vote>, users: UserStore): (r: seq<UserRecord>)
    reads users
    ensures |r| <= |votes|
    decreases |votes|
  {
    if votes == [] then []
    else
      var init := VotedUsers(votes[..|votes| - 1], users);
      match users.ByTelegramId(votes[|votes| - 1].userId)
      case Found(u) => init + [u]
      case _ => init
  }

  /** A user is among the voted users exactly when some vote's lookup found them. */
  lemma {:induction false} VotedUsersResolved(votes: seq<Vote>, users: UserStore, u: UserRecord)
    ensures u in VotedUsers(votes, users) <==>
      exists i :: 0 <= i < |votes| && users.ByTelegramId(votes[i].userId) == Found(u)
    decreases |votes|
  {
    if votes != [] {
      var init := votes[..|votes| - 1];
      VotedUsersResolved(init, users, u);
      if exists i :: 0 <= i < |votes| && users.ByTelegramId(votes[i].userId) == Found(u) {
        var i :| 0 <= i < |votes| && users.ByTelegramId(votes[i].userId) == Found(u);
        if i < |init| {
          assert init[i] == votes[i];
        }
      }
      forall i | 0 <= i < |init| ensures init[i] == votes[i] {
      }
    }
  }

  /** `getVotedUsers`. */
  method GetVotedUsers(votes: seq<Vote>, users: UserStore) returns (voted: seq<UserRecord>)
    ensures voted == VotedUsers(votes, users)
  {
    voted := [];
    for i := 0 to |votes|
      invariant voted == VotedUsers(votes[..i], users)
    {
      assert votes[..i + 1][..i] == votes[..i];
      var found := users.ByTelegramId(votes[i].userId);
      if found.Failed? {
        continue;
      } else if found.Missing? {
        continue;
      }
      voted := voted + [found.value];
    }
    assert votes[..|votes|] == votes;
  }

  /** The seeders among `users`, in order and with repeats. */
  function VotedSeeders(users: seq<UserRecord>): (r: seq<UserRecord>)
    ensures |r| <= |users|
    decreases |users|
  {
    if users == [] then []
    else
      var init := VotedSeeders(users[..|users| - 1]);
      if users[|users| - 1].role == Seeder then init + [users[|users| - 1]] else init
  }

  /** Selecting seeders keeps the order of the users. */
  lemma {:induction false} VotedSeedersAppend(a: seq<UserRecord>, b: seq<UserRecord>)
    ensures VotedSeeders(a + b) == VotedSeeders(a) + VotedSeeders(b)
    decreases |b|
  {
    if b != [] {
      var init := b[..|b| - 1];
      assert (a + b)[..|a + b| - 1] == a + init;
      VotedSeedersAppend(a, init);
    } else {
      assert a + b == a;
    }
  }

  /** Every seeder is kept as often as it occurs, and nobody else is kept. */
  lemma {:induction false} VotedSeedersMultiplicity(users: seq<UserRecord>, u: UserRecord)
    ensures multiset(VotedSeeders(users))[u] == (if u.role == Seeder then multiset(users)[u] else 0)
    decreases |users|
  {
    if users != [] {
      var init := users[..|users| - 1];
      assert users == init + [users[|users| - 1]];
      VotedSeedersMultiplicity(init, u);
    }
  }

  /** `getVotedSeeders`. */
  method GetVotedSeeders(users: seq<UserRecord>) returns (seeders: seq<UserRecord>)
    ensures seeders == VotedSeeders(users)
  {
    seeders := [];
    for i := 0 to |users|
      invariant seeders == VotedSeeders(users[..i])
    {
      assert users[..i + 1][..i] == users[..i];
      if users[i].role == Seeder {
        seeders := seeders + [users[i]];
      }
    }
    assert users[..|users|] == users;
  }

  // ------------------------------------------------------------- decision

  /**
   * `updateProposalStatus`: writes one of the three final statuses into the
   * proposal. No votes at all reject before the quorum is looked at; too few
   * voting seeders mean no quorum whatever the counts; otherwise enough yes
   * votes and no remaining no vote approve.
   */
  function UpdateProposalStatus(
    p: Proposal, votes: seq<Vote>, votedSeeders: seq<UserRecord>,
    minRequiredSeeders: int, yes: nat, no: nat, config: Config): (r: Proposal)
    ensures r == p.(status := r.status)
    ensures IsSettled(r.status)
    ensures votes == [] ==> r.status == Rejected
    ensures votes != [] && |votedSeeders| < minRequiredSeeders ==> r.status == NoQuorum
    ensures (votes != [] && |votedSeeders| >= minRequiredSeeders &&
             (yes < Round(|votes|, config.minYesPercentage) || no > 0)) ==> r.status == Rejected
    ensures r.status == NoQuorum <==> votes != [] && |votedSeeders| < minRequiredSeeders
    ensures r.status == Approved <==>
      votes != [] && |votedSeeders| >= minRequiredSeeders &&
      yes >= Round(|votes|, config.minYesPercentage) && no == 0
  {
    var minRequiredYes := Round(|votes|, config.minYesPercentage);
    if |votes| == 0 then p.(status := Rejected)
    else if |votedSeeders| < minRequiredSeeders then p.(status := NoQuorum)
    else if yes < minRequiredYes || no > 0 then p.(status := Rejected)
    else p.(status := Approved)
  }

  /** The expectations of the decision tests: a share of one half and a quorum of two seeders. */
  lemma DecisionExamples(p: Proposal, v: Vote, s: UserRecord)
    ensures UpdateProposalStatus(p, [v, v, v], [s, s, s], 2, 3, 0, Config(Half, Half, Half)).status == Approved
    ensures UpdateProposalStatus(p, [v, v, v], [s], 2, 3, 0, Config(Half, Half, Half)).status == NoQuorum
    ensures UpdateProposalStatus(p, [v, v, v], [s, s, s], 2, 1, 0, Config(Half, Half, Half)).status == Rejected
    ensures UpdateProposalStatus(p, [v, v, v, v], [s, s, s, s], 2, 1, 0, Config(Half, Half, Half)).status == Rejected
    ensures UpdateProposalStatus(p, [v, v, v], [s, s, s], 2, 3, 1, Config(Half, Half, Half)).status == Rejected
  {
  }

  /** What one pass makes of a due proposal whose votes it fetched. */
  function Settle(p: Proposal, votes: seq<Vote>, users: UserStore, minRequiredSeeders: int, config: Config): Proposal
    reads users
  {
    var t := Tally(votes, config.yesVotesToOvercomeNo);
    UpdateProposalStatus(p, votes, VotedSeeders(VotedUsers(votes, users)), minRequiredSeeders, t.0, t.1, config)
  }

  /**
   * A proposal is approved exactly when it has votes, enough seeders voted,
   * the yes votes reach the `MinYesPercentage` share, and there was no
   * "no" vote, or a single one that the yes votes overcame.
   */
  lemma ApprovedIff(p: Proposal, votes: seq<Vote>, users: UserStore, minRequiredSeeders: int, config: Config)
    ensures Settle(p, votes, users, minRequiredSeeders, config).status == Approved <==>
      votes != [] &&
      |VotedSeeders(VotedUsers(votes, users))| >= minRequiredSeeders &&
      Count(votes, Yes) >= Round(|votes|, config.minYesPercentage) &&
      (Count(votes, No) == 0 ||
       (Count(votes, No) == 1 && Count(votes, Yes) >= Round(|votes|, config.yesVotesToOvercomeNo)))
  {
    CancelsAtMostOneNo(votes, config.yesVotesToOvercomeNo);
  }

  /** Two "no" votes always stop a proposal. */
  lemma TwoNoVotesNeverApproved(p: Proposal, votes: seq<Vote>, users: UserStore, minRequiredSeeders: int, config: Config)
    requires Count(votes, No) >= 2
    ensures Settle(p, votes, users, minRequiredSeeders, config).status != Approved
  {
    ApprovedIff(p, votes, users, minRequiredSeeders, config);
  }

  // ------------------------------------------------------ deadline filter

  /** Whether a pass settles `p`: its voting is over by `now` and its votes could be fetched. */
  predicate IsDue(p: Proposal, now: Time, service: VoteService) {
    p.finishedAt <= now && service.GetVotes(p.poll.id).Some?
  }

  /** `p` after a pass: settled when due, untouched otherwise. */
  function Refreshed(p: Proposal, now: Time, service: VoteService, users: UserStore, minRequiredSeeders: int, config: Config): Proposal
    reads users
  {
    if IsDue(p, now, service) then Settle(p, service.GetVotes(p.poll.id).value, users, minRequiredSeeders, config) else p
  }

  /** The proposals a pass hands on, settled, in input order. */
  function Due(ps: seq<Proposal>, now: Time, service: VoteService, users: UserStore, minRequiredSeeders: int, config: Config): (r: seq<Proposal>)
    reads users
    ensures |r| <= |ps|
    decreases |ps|
  {
    if ps == [] then []
    else
      var init := Due(ps[..|ps| - 1], now, service, users, minRequiredSeeders, config);
      var p := ps[|ps| - 1];
      if IsDue(p, now, service) then init + [Refreshed(p, now, service, users, minRequiredSeeders, config)] else init
  }

  /** Everything a pass hands on is the settled form of a due input. */
  lemma {:induction false} DueSound(ps: seq<Proposal>, now: Time, service: VoteService, users: UserStore, minRequiredSeeders: int, config: Config, q: Proposal)
    requires q in Due(ps, now, service, users, minRequiredSeeders, config)
    ensures exists i :: (0 <= i < |ps| && IsDue(ps[i], now, service) &&
      q == Refreshed(ps[i], now, service, users, minRequiredSeeders, config))
    decreases |ps|
  {
    var init := ps[..|ps| - 1];
    if q in Due(init, now, service, users, minRequiredSeeders, config) {
      DueSound(init, now, service, users, minRequiredSeeders, config, q);
      var i :| 0 <= i < |init| && IsDue(init[i], now, service) &&
        q == Refreshed(init[i], now, service, users, minRequiredSeeders, config);
      assert init[i] == ps[i];
    } else {
      assert IsDue(ps[|ps| - 1], now, service);
    }
  }

  /** Every due input is handed on, settled. */
  lemma {:induction false} DueComplete(ps: seq<Proposal>, now: Time, service: VoteService, users: UserStore, minRequiredSeeders: int, config: Config, i: nat)
    requires i < |ps| && IsDue(ps[i], now, service)
    ensures Refreshed(ps[i], now, service, users, minRequiredSeeders, config) in Due(ps, now, service, users, minRequiredSeeders, config)
    decreases |ps|
  {
    var init := ps[..|ps| - 1];
    if i < |init| {
      assert init[i] == ps[i];
      DueComplete(init, now, service, users, minRequiredSeeders, config, i);
    }
  }

  /** Everything a pass hands on is settled, and differs from its input only in status. */
  lemma {:induction false} DueSettled(ps: seq<Proposal>, now: Time, service: VoteService, users: UserStore, minRequiredSeeders: int, config: Config)
    ensures forall k :: 0 <= k < |Due(ps, now, service, users, minRequiredSeeders, config)| ==>
      IsSettled(Due(ps, now, service, users, minRequiredSeeders, config)[k].status)
    ensures forall q :: q in Due(ps, now, service, users, minRequiredSeeders, config) ==>
      exists p :: p in ps && q == p.(status := q.status)
    decreases |ps|
  {
    if ps != [] {
      var init := ps[..|ps| - 1];
      DueSettled(init, now, service, users, minRequiredSeeders, config);
      forall q | q in Due(ps, now, service, users, minRequiredSeeders, config)
        ensures exists p :: p in ps && q == p.(status := q.status)
      {
        if q in Due(init, now, service, users, minRequiredSeeders, config) {
          var p :| p in init && q == p.(status := q.status);
          assert p in ps;
        } else {
          assert ps[|ps| - 1] in ps;
        }
      }
    }
  }

  /** The body of the pass for one due proposal: count, resolve the voters, decide. */
  method SettleOne(p: Proposal, votes: seq<Vote>, users: UserStore, minRequiredSeeders: int, config: Config)
    returns (q: Proposal)
    ensures q == Settle(p, votes, users, minRequiredSeeders, config)
  {
    var yes, no := CalculateYesAndNoVotes(votes, config.yesVotesToOvercomeNo);
    var votedUsers := GetVotedUsers(votes, users);
    var votedSeeders := GetVotedSeeders(votedUsers);
    q := UpdateProposalStatus(p, votes, votedSeeders, minRequiredSeeders, yes, no, config);
  }

  /**
   * `getProposalsNeedToBeUpdated`: settles the due proposals in place and
   * answers them in order. The quorum is computed once per pass from the
   * number of seeders.
   */
  method GetProposalsNeedToBeUpdated(
    seeders: seq<UserRecord>, proposals: array<Proposal>, users: UserStore,
    service: VoteService, config: Config, now: Time) returns (due: seq<Proposal>)
    modifies proposals
    ensures forall i :: 0 <= i < proposals.Length ==>
      proposals[i] == Refreshed(old(proposals[i]), now, service, users, Round(|seeders|, config.quorum), config)
    ensures due == Due(old(proposals[..]), now, service, users, Round(|seeders|, config.quorum), config)
  {
    var minRequiredSeeders := Round(|seeders|, config.quorum);
    ghost var before := proposals[..];
    due := [];
    for i := 0 to proposals.Length
      invariant forall k :: 0 <= k < i ==>
        proposals[k] == Refreshed(before[k], now, service, users, minRequiredSeeders, config)
      invariant forall k :: i <= k < proposals.Length ==> proposals[k] == before[k]
      invariant due == Due(before[..i], now, service, users, minRequiredSeeders, config)
    {
      assert before[..i + 1][..i] == before[..i];
      var p := proposals[i];
      if p.finishedAt > now {
        continue;
      }
      var fetched := service.GetVotes(p.poll.id);
      if fetched.None? {
        continue;
      }
      proposals[i] := SettleOne(p, fetched.value, users, minRequiredSeeders, config);
      due := due + [proposals[i]];
    }
    assert before[..proposals.Length] == before;
  }

  // ---------------------------------------------------- persistence loop

  /** The user ids of the "yes" votes, in vote order. */
  function Backers(votes: seq<Vote>): (ids: seq<int>)
    ensures |ids| == Count(votes, Yes)
    decreases |votes|
  {
    if votes == [] then []
    else
      var init := Backers(votes[..|votes| - 1]);
      if votes[|votes| - 1].option == Yes then init + [votes[|votes| - 1].userId] else init
  }

  /** The backers are exactly the users who voted "yes". */
  lemma {:induction false} BackersAreYesVoters(votes: seq<Vote>, id: int)
    ensures id in Backers(votes) <==> exists i :: 0 <= i < |votes| && votes[i].option == Yes && votes[i].userId == id
    decreases |votes|
  {
    if votes != [] {
      var init := votes[..|votes| - 1];
      BackersAreYesVoters(init, id);
      forall i | 0 <= i < |init| ensures init[i] == votes[i] {
      }
      if exists i :: 0 <= i < |votes| && votes[i].option == Yes && votes[i].userId == id {
        var i :| 0 <= i < |votes| && votes[i].option == Yes && votes[i].userId == id;
        if i < |init| {
          assert init[i] == votes[i];
        }
      }
    }
  }

  /** The loop of `updateProposals` that gathers the backers. */
  method CollectBackers(votes: seq<Vote>) returns (ids: seq<int>)
    ensures ids == Backers(votes)
  {
    ids := [];
    for i := 0 to |votes|
      invariant ids == Backers(votes[..i])
    {
      assert votes[..i + 1][..i] == votes[..i];
      if votes[i].option == Yes {
        ids := ids + [votes[i].userId];
      }
    }
    assert votes[..|votes|] == votes;
  }

  /** The account `updateProposals` creates for an approved nominee; every other field is Go's zero value. */
  function NomineeAccount(p: Proposal, votes: seq<Vote>): UserRecord {
    ZeroUser.(name := p.nomineeName, telegramNickname := p.nomineeTelegramNickname,
              role := Guest, backersId := Backers(votes))
  }

  /** A new account is a guest named after the nominee, backed by each "yes" voter. */
  lemma NomineeAccountShape(p: Proposal, votes: seq<Vote>, id: int)
    ensures NomineeAccount(p, votes).role == Guest
    ensures NomineeAccount(p, votes).name == p.nomineeName
    ensures NomineeAccount(p, votes).telegramNickname == p.nomineeTelegramNickname
    ensures |NomineeAccount(p, votes).backersId| == Count(votes, Yes)
    ensures id in NomineeAccount(p, votes).backersId <==>
      exists i :: 0 <= i < |votes| && votes[i].option == Yes && votes[i].userId == id
  {
    BackersAreYesVoters(votes, id);
  }

  /**
   * Whether `updateProposals` keeps `p`: its update went through and, when
   * it is approved, the votes were fetched again and the account created.
   */
  predicate Keeps(p: Proposal, proposalFailing: set<Call>, service: VoteService, userFailing: set<Call>) {
    ProposalUpdate(p) !in proposalFailing &&
    (p.status == Approved ==>
      service.GetVotes(p.poll.id).Some? &&
      UserCreate(NomineeAccount(p, service.GetVotes(p.poll.id).value)) !in userFailing)
  }

  /** Whether `updateProposals` creates an account for `p`. */
  predicate Opens(p: Proposal, proposalFailing: set<Call>, service: VoteService, userFailing: set<Call>) {
    p.status == Approved && Keeps(p, proposalFailing, service, userFailing)
  }

  function Kept(ps: seq<Proposal>, proposalFailing: set<Call>, service: VoteService, userFailing: set<Call>): (r: seq<Proposal>)
    ensures |r| <= |ps|
    decreases |ps|
  {
    if ps == [] then []
    else
      var init := Kept(ps[..|ps| - 1], proposalFailing, service, userFailing);
      if Keeps(ps[|ps| - 1], proposalFailing, service, userFailing) then init + [ps[|ps| - 1]] else init
  }

  /** The accounts `updateProposals` asks the user store to create, in order. */
  function Accounts(ps: seq<Proposal>, proposalFailing: set<Call>, service: VoteService, userFailing: set<Call>): seq<UserRecord>
    decreases |ps|
  {
    if ps == [] then []
    else
      var init := Accounts(ps[..|ps| - 1], proposalFailing, service, userFailing);
      var p := ps[|ps| - 1];
      if Opens(p, proposalFailing, service, userFailing)
      then init + [NomineeAccount(p, service.GetVotes(p.poll.id).value)]
      else init
  }

  /** `accounts` as inserted, with keys handed out from `from` on. */
  function Numbered(accounts: seq<UserRecord>, from: int): (r: seq<UserRecord>)
    ensures |r| == |accounts|
    decreases |accounts|
  {
    if accounts == [] then []
    else
      Numbered(accounts[..|accounts| - 1], from) +
      [accounts[|accounts| - 1].(id := from + |accounts| - 1)]
  }

  /** The proposal table after `updateProposals` wrote each proposal whose update did not fail. */
  function AfterUpdates(rows: seq<Proposal>, ps: seq<Proposal>, proposalFailing: set<Call>): seq<Proposal>
    decreases |ps|
  {
    if ps == [] then rows
    else
      var before := AfterUpdates(rows, ps[..|ps| - 1], proposalFailing);
      var p := ps[|ps| - 1];
      if ProposalUpdate(p) in proposalFailing then before else ReplaceProposal(before, p)
  }

  /** `updateProposals` keeps exactly the proposals whose persistence went through, in order. */
  lemma {:induction false} KeptIff(ps: seq<Proposal>, proposalFailing: set<Call>, service: VoteService, userFailing: set<Call>, q: Proposal)
    ensures q in Kept(ps, proposalFailing, service, userFailing) <==> q in ps && Keeps(q, proposalFailing, service, userFailing)
    decreases |ps|
  {
    if ps != [] {
      var init := ps[..|ps| - 1];
      assert ps == init + [ps[|ps| - 1]];
      KeptIff(init, proposalFailing, service, userFailing, q);
    }
  }

  /** Kept proposals keep the input order. */
  lemma {:induction false} KeptAppend(a: seq<Proposal>, b: seq<Proposal>, proposalFailing: set<Call>, service: VoteService, userFailing: set<Call>)
    ensures Kept(a + b, proposalFailing, service, userFailing) ==
      Kept(a, proposalFailing, service, userFailing) + Kept(b, proposalFailing, service, userFailing)
    decreases |b|
  {
    if b != [] {
      var init := b[..|b| - 1];
      assert (a + b)[..|a + b| - 1] == a + init;
      KeptAppend(a, init, proposalFailing, service, userFailing);
    } else {
      assert a + b == a;
    }
  }

  /** Every account created is a guest named after an approved, kept nominee. */
  lemma {:induction false} AccountsAreGuests(ps: seq<Proposal>, proposalFailing: set<Call>, service: VoteService, userFailing: set<Call>, u: UserRecord)
    requires u in Accounts(ps, proposalFailing, service, userFailing)
    ensures u.role == Guest
    ensures exists p :: (p in Kept(ps, proposalFailing, service, userFailing) && p.status == Approved &&
      u.telegramNickname == p.nomineeTelegramNickname && u.name == p.nomineeName)
    decreases |ps|
  {
    var init := ps[..|ps| - 1];
    var p := ps[|ps| - 1];
    if u in Accounts(init, proposalFailing, service, userFailing) {
      AccountsAreGuests(init, proposalFailing, service, userFailing, u);
      var q :| q in Kept(init, proposalFailing, service, userFailing) && q.status == Approved &&
        u.telegramNickname == q.nomineeTelegramNickname && u.name == q.nomineeName;
      assert q in Kept(ps, proposalFailing, service, userFailing);
    } else {
      assert p in Kept(ps, proposalFailing, service, userFailing);
    }
  }

  /** The expectations of the persistence tests: two plain proposals, zero, one or two failed updates. */
  lemma KeptExamples(service: VoteService, userFailing: set<Call>)
    ensures |Kept([NoProposal.(id := 1), NoProposal.(id := 2)], {}, service, userFailing)| == 2
    ensures |Kept([NoProposal.(id := 1), NoProposal.(id := 2)], {ProposalUpdate(NoProposal.(id := 1))}, service, userFailing)| == 1
    ensures |Kept([NoProposal.(id := 1), NoProposal.(id := 2)],
                 {ProposalUpdate(NoProposal.(id := 1)), ProposalUpdate(NoProposal.(id := 2))}, service, userFailing)| == 0
  {
    var ps := [NoProposal.(id := 1), NoProposal.(id := 2)];
    assert ps[..1] == [NoProposal.(id := 1)];
  }

  /** What `updateProposals` has kept, written and created once it has handled `done`. */
  predicate Progress(done: seq<Proposal>, updated: seq<Proposal>, storeRows: seq<Proposal>, userRows: seq<UserRecord>,
                     nextId: int, rows0: seq<Proposal>, users0: seq<UserRecord>, from: int,
                     pf: set<Call>, service: VoteService, uf: set<Call>)
  {
    updated == Kept(done, pf, service, uf) &&
    storeRows == AfterUpdates(rows0, done, pf) &&
    userRows == users0 + Numbered(Accounts(done, pf, service, uf), from) &&
    nextId == from + |Accounts(done, pf, service, uf)|
  }

  /** One turn of the loop, as `UpdateOne` states it, carries `Progress` from `done` to `done + [p]`. */
  lemma ProgressStep(done: seq<Proposal>, p: Proposal, updated: seq<Proposal>,
                     storeRows: seq<Proposal>, userRows: seq<UserRecord>, nextId: int, kept: bool,
                     storeRows': seq<Proposal>, userRows': seq<UserRecord>, nextId': int,
                     rows0: seq<Proposal>, users0: seq<UserRecord>, from: int,
                     pf: set<Call>, service: VoteService, uf: set<Call>)
    requires Progress(done, updated, storeRows, userRows, nextId, rows0, users0, from, pf, service, uf)
    requires kept == Keeps(p, pf, service, uf)
    requires storeRows' == if ProposalUpdate(p) in pf then storeRows else ReplaceProposal(storeRows, p)
    requires Opens(p, pf, service, uf) ==>
      userRows' == userRows + [NomineeAccount(p, service.GetVotes(p.poll.id).value).(id := nextId)] && nextId' == nextId + 1
    requires !Opens(p, pf, service, uf) ==> userRows' == userRows && nextId' == nextId
    ensures Progress(done + [p], updated + (if kept then [p] else []), storeRows', userRows', nextId',
                     rows0, users0, from, pf, service, uf)
  {
    var ps := done + [p];
    assert ps[..|ps| - 1] == done && ps[|ps| - 1] == p;
    var a := Accounts(done, pf, service, uf);
    if Opens(p, pf, service, uf) {
      var x := NomineeAccount(p, service.GetVotes(p.poll.id).value);
      assert (a + [x])[..|a|] == a;
    }
  }

  /** One turn of the `updateProposals` loop: whether `p` is kept, and what it wrote. */
  method UpdateOne(p: Proposal, store: ProposalStore, service: VoteService, users: UserStore) returns (kept: bool)
    modifies store`rows, users`rows, users`nextId
    ensures kept == Keeps(p, store.failing, service, users.failing)
    ensures store.rows == if ProposalUpdate(p) in store.failing then old(store.rows) else ReplaceProposal(old(store.rows), p)
    ensures Opens(p, store.failing, service, users.failing) ==>
      users.rows == old(users.rows) + [NomineeAccount(p, service.GetVotes(p.poll.id).value).(id := old(users.nextId))] &&
      users.nextId == old(users.nextId) + 1
    ensures !Opens(p, store.failing, service, users.failing) ==>
      users.rows == old(users.rows) && users.nextId == old(users.nextId)
  {
    var written := store.Update(p);
    if written.Failed? {
      return false;
    }
    if p.status == Approved {
      var fetched := service.GetVotes(p.poll.id);
      if fetched.None? {
        return false;
      }
      var backersIds := CollectBackers(fetched.value);
      var account := ZeroUser.(name := p.nomineeName, telegramNickname := p.nomineeTelegramNickname,
                               role := Guest, backersId := backersIds);
      var created := users.Create(account);
      if created.Failed? {
        return false;
      }
    }
    kept := true;
  }

  /**
   * `updateProposals`: writes each proposal back, opens an account for each
   * approved one, and answers the proposals for which all of that went
   * through; a failure skips only its own proposal.
   */
  method UpdateProposals(proposals: seq<Proposal>, store: ProposalStore, service: VoteService, users: UserStore)
    returns (updated: seq<Proposal>)
    modifies store`rows, users`rows, users`nextId
    ensures updated == Kept(proposals, store.failing, service, users.failing)
    ensures store.rows == AfterUpdates(old(store.rows), proposals, store.failing)
    ensures users.rows == old(users.rows) + Numbered(Accounts(proposals, store.failing, service, users.failing), old(users.nextId))
    ensures users.nextId == old(users.nextId) + |Accounts(proposals, store.failing, service, users.failing)|
  {
    updated := [];
    ghost var rows0, users0, from := store.rows, users.rows, users.nextId;
    for i := 0 to |proposals|
      invariant Progress(proposals[..i], updated, store.rows, users.rows, users.nextId,
                         rows0, users0, from, store.failing, service, users.failing)
    {
      assert proposals[..i + 1] == proposals[..i] + [proposals[i]];
      ghost var storeRows, userRows, nextId := store.rows, users.rows, users.nextId;
      var kept := UpdateOne(proposals[i], store, service, users);
      ProgressStep(proposals[..i], proposals[i], updated, storeRows, userRows, nextId, kept,
                   store.rows, users.rows, users.nextId, rows0, users0, from, store.failing, service, users.failing);
      if kept {
        updated := updated + [proposals[i]];
      }
    }
    assert proposals[..|proposals|] == proposals;
  }

  // --------------------------------------------------------- notifications

  /**
   * The messages `sendNotifications` builds for a proposal, given the chat
   * of its nominator and the invite link; none for a status it does not
   * handle.
   */
  function Notifications(p: Proposal, nominatorChat: int, inviteLink: string): (ms: seq<Chattable>)
    ensures IsSettled(p.status) ==> |ms| == 2 && ms[0].Message? && ms[1].Message? && ms[0].chatId == nominatorChat
    ensures !IsSettled(p.status) ==> ms == []
    ensures p.status == Rejected || p.status == NoQuorum ==>
      ms[1].chatId == p.poll.chatId && ms[1].replyTo == p.poll.pollMessageId && ms[0].replyTo == 0
    ensures p.status == Approved ==>
      ms[1].chatId == nominatorChat && ms[1].text == InviteForNominee(inviteLink)
    ensures p.status == Rejected ==>
      ms[0].text == RejectedToNominator(p.nomineeName, p.nomineeTelegramNickname) &&
      ms[1].text == RejectedToSeeders(p.nomineeName, p.nomineeTelegramNickname)
    ensures p.status == Approved ==> ms[0].text == ApprovedToNominator(p.nomineeName, p.nomineeTelegramNickname)
    ensures p.status == NoQuorum ==>
      ms[0].text == NoQuorumToNominator(p.nomineeName, p.nomineeTelegramNickname) &&
      ms[1].text == NoQuorumToSeeders(p.nomineeName, p.nomineeTelegramNickname)
  {
    match p.status
    case Rejected =>
      [NewMessage(nominatorChat, RejectedToNominator(p.nomineeName, p.nomineeTelegramNickname)),
       Message(p.poll.chatId, RejectedToSeeders(p.nomineeName, p.nomineeTelegramNickname), p.poll.pollMessageId)]
    case Approved =>
      [NewMessage(nominatorChat, ApprovedToNominator(p.nomineeName, p.nomineeTelegramNickname)),
       NewMessage(nominatorChat, InviteForNominee(inviteLink))]
    case NoQuorum =>
      [NewMessage(nominatorChat, NoQuorumToNominator(p.nomineeName, p.nomineeTelegramNickname)),
       Message(p.poll.chatId, NoQuorumToSeeders(p.nomineeName, p.nomineeTelegramNickname), p.poll.pollMessageId)]
    case _ => []
  }

  /** The outcome a notification text reports, and about whom; `None` for the invite and every other text. */
  function Announces(t: Text): Option<(Status, string, string)> {
    match t
    case RejectedToNominator(name, nickname) => Some((Rejected, name, nickname))
    case RejectedToSeeders(name, nickname) => Some((Rejected, name, nickname))
    case ApprovedToNominator(name, nickname) => Some((Approved, name, nickname))
    case NoQuorumToNominator(name, nickname) => Some((NoQuorum, name, nickname))
    case NoQuorumToSeeders(name, nickname) => Some((NoQuorum, name, nickname))
    case _ => None
  }

  /**
   * The nominator is told the proposal's own outcome about its own nominee;
   * on rejected and no_quorum the poll's chat is told the same, and on
   * approved the second message reports no outcome but carries the invite.
   */
  lemma NominatorToldOutcome(p: Proposal, nominatorChat: int, inviteLink: string)
    requires IsSettled(p.status)
    ensures var ms := Notifications(p, nominatorChat, inviteLink);
      Announces(ms[0].text) == Some((p.status, p.nomineeName, p.nomineeTelegramNickname)) &&
      (p.status != Approved ==> Announces(ms[1].text) == Announces(ms[0].text)) &&
      (p.status == Approved ==> Announces(ms[1].text).None?)
  {
  }

  /** The messages of `ms` Telegram accepts from `bot`, in order. */
  function Accepted(ms: seq<Chattable>, refusing: set<Chattable>): (r: seq<Chattable>)
    ensures |r| <= |ms|
    ensures forall m :: m in r <==> m in ms && m !in refusing
    decreases |ms|
  {
    if ms == [] then []
    else
      var init := Accepted(ms[..|ms| - 1], refusing);
      var m := ms[|ms| - 1];
      assert ms == ms[..|ms| - 1] + [m];
      if m in refusing then init else init + [m]
  }

  /** The send loop: every message is tried, a refused one is only logged. */
  method SendAll(bot: Messenger, ms: seq<Chattable>)
    modifies bot`sent
    ensures bot.sent == old(bot.sent) + Accepted(ms, bot.refusing)
  {
    for i := 0 to |ms|
      invariant bot.sent == old(bot.sent) + Accepted(ms[..i], bot.refusing)
    {
      assert ms[..i + 1][..i] == ms[..i];
      var ok := bot.Send(ms[i]);
    }
    assert ms[..|ms|] == ms;
  }

  /**
   * `sendNotifications`. A nominator lookup error only logs, leaving the
   * zero user and so chat 0; a nominator with no row, or a bot that could
   * not be created, is dereferenced and panics before anything is sent.
   */
  method SendNotifications(p: Proposal, users: UserStore, bot: Messenger) returns (o: Outcome<()>)
    modifies bot`sent
    ensures !IsSettled(p.status) ==> o == Returned(()) && bot.sent == old(bot.sent)
    ensures IsSettled(p.status) && (users.ById(p.nominatorId).Missing? || !bot.connects) ==>
      o == Panicked && bot.sent == old(bot.sent)
    ensures IsSettled(p.status) && !users.ById(p.nominatorId).Missing? && bot.connects ==>
      o == Returned(()) &&
      bot.sent == old(bot.sent) +
        Accepted(Notifications(p, UserPointer(users.ById(p.nominatorId)).value.telegramId, bot.inviteLink.GetOr("")),
                 bot.refusing)
  {
    if !IsSettled(p.status) {
      return Returned(());
    }
    var nominator := UserPointer(users.ById(p.nominatorId));
    if nominator.None? || !bot.connects {
      return Panicked;
    }
    var link := bot.inviteLink.GetOr("");
    SendAll(bot, Notifications(p, nominator.value.telegramId, link));
    o := Returned(());
  }
}
