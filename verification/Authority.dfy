/** Grants, their scopes and their use budgets, in memory or in a shared journal. */
module Authority {
  import opened Wrappers
  import opened Ordering
  import opened Journal

  datatype Provenance =
    | TrustedControl
    | AuthorizedUser
    | ProjectData
    | ExternalUntrusted
    | ModelGenerated
    | UnknownProvenance

  datatype Grant = Grant(
    capabilityId: string, subject: string, goalId: string, runId: string, actions: seq<string>,
    resources: seq<string>, notBefore: int, expiresAt: int, maxUses: int)

  datatype Request = Request(
    subject: string, goalId: string, runId: string, action: string, resource: string,
    provenance: seq<Provenance>)

  datatype Decision =
    | Allow(capabilityId: string, provenance: seq<Provenance>)
    | Deny(budgetExhausted: bool, provenance: seq<Provenance>, expansionFromUntrusted: bool)

  // ----- scopes -----------------------------------------------------------------------------------

  function Stars(text: string): nat {
    if text == "" then 0 else (if text[0] == '*' then 1 else 0) + Stars(text[1..])
  }

  /** A scope that is neither exact nor a terminal wildcard. */
  predicate Malformed(scope: string) {
    '*' in scope && !(|scope| >= 3 && scope[|scope| - 3..] == "/**" && Stars(scope) == 2)
  }

  function ResourceMatches(scope: string, requested: string): Result<bool> {
    if '*' !in scope then Success(scope == requested)
    else if |scope| < 3 || scope[|scope| - 3..] != "/**" || Stars(scope) != 2 then
      Failure(ValidationError)
    else
      var prefix := scope[..|scope| - 2];
      Success(StartsWith(requested, prefix) && |requested| > |prefix|)
  }

  /** A terminal wildcard covers exactly what lies strictly below its directory; any other scope
      covers itself. */
  lemma WildcardMeaning(directory: string, requested: string)
    requires '*' !in directory
    ensures !Malformed(directory + "/**")
    ensures ResourceMatches(directory + "/**", requested) == Success(true) <==>
            exists below :: below != "" && requested == directory + "/" + below
    ensures ResourceMatches(directory, requested) == Success(directory == requested)
  {
    var scope, prefix := directory + "/**", directory + "/";
    StarsOfConcat(directory, "/**");
    NoStars(directory);
    assert Stars("/**") == 2 by {
      assert "/**"[1..] == "**" && "**"[1..] == "*" && "*"[1..] == "";
    }
    assert scope[|scope| - 3..] == "/**" && scope[|scope| - 1] == '*';
    assert scope[..|scope| - 2] == prefix;
    if StartsWith(requested, prefix) && |requested| > |prefix| {
      assert requested == prefix + requested[|prefix|..];
    }
    if below :| below != "" && requested == directory + "/" + below {
      assert requested[..|prefix|] == prefix;
    }
  }

  lemma {:induction false} NoStars(text: string)
    requires '*' !in text
    ensures Stars(text) == 0
  {
    if text != "" {
      NoStars(text[1..]);
    }
  }

  lemma {:induction false} StarsOfConcat(a: string, b: string)
    ensures Stars(a + b) == Stars(a) + Stars(b)
  {
    if a == "" {
      assert a + b == b;
    } else {
      StarsOfConcat(a[1..], b);
      assert (a + b)[1..] == a[1..] + b;
    }
  }

  function AnyScope(scopes: seq<string>, requested: string): Result<bool> {
    if scopes == [] then Success(false)
    else
      var first := ResourceMatches(scopes[0], requested);
      if first.Failure? || first.value then first else AnyScope(scopes[1..], requested)
  }

  // ----- one check --------------------------------------------------------------------------------

  function Candidates(grants: seq<Grant>, request: Request): seq<Grant> {
    if grants == [] then []
    else
      var g := grants[0];
      var rest := Candidates(grants[1..], request);
      if g.subject == request.subject && g.goalId == request.goalId && g.runId == request.runId then
        [g] + rest
      else rest
  }

  /** In force, for this action, over this resource. */
  function Covers(g: Grant, request: Request, now: int): Result<bool> {
    if !(g.notBefore <= now < g.expiresAt) then Success(false)
    else if request.action !in g.actions then Success(false)
    else AnyScope(g.resources, request.resource)
  }

  function Used(uses: map<string, nat>, capabilityId: string): nat {
    if capabilityId in uses then uses[capabilityId] else 0
  }

  /** Consuming one use, from the durable counters or from those of the service. */
  function Spend(durable: bool, uses: map<string, nat>, g: Grant): (Result<bool>, map<string, nat>) {
    if durable && g.maxUses < 1 then (Failure(ValidationError), uses)
    else if Used(uses, g.capabilityId) < g.maxUses then
      (Success(true), uses[g.capabilityId := Used(uses, g.capabilityId) + 1])
    else (Success(false), uses)
  }

  predicate Untrusted(p: Provenance) {
    p.ProjectData? || p.ExternalUntrusted? || p.ModelGenerated? || p.UnknownProvenance?
  }

  function Denial(request: Request, exhausted: bool): (d: Decision)
    ensures d.Deny? && d.budgetExhausted == exhausted
  {
    Deny(exhausted, request.provenance, exists p :: p in request.provenance && Untrusted(p))
  }

  function CheckFrom(durable: bool, candidates: seq<Grant>, request: Request, now: int,
                     uses: map<string, nat>, exhausted: bool): (Result<Decision>, map<string, nat>)
  {
    if candidates == [] then (Success(Denial(request, exhausted)), uses)
    else
      var g, rest := candidates[0], candidates[1..];
      var covers := Covers(g, request, now);
      if covers.Failure? then (Failure(covers.error), uses)
      else if !covers.value then CheckFrom(durable, rest, request, now, uses, exhausted)
      else
        var spent := Spend(durable, uses, g);
        if spent.0.Failure? then (Failure(spent.0.error), spent.1)
        else if spent.0.value then (Success(Allow(g.capabilityId, request.provenance)), spent.1)
        else CheckFrom(durable, rest, request, now, spent.1, true)
  }

  function CheckAll(durable: bool, grants: seq<Grant>, request: Request, now: int, uses: map<string, nat>)
    : (Result<Decision>, map<string, nat>)
  {
    CheckFrom(durable, Candidates(grants, request), request, now, uses, false)
  }

  class AuthorityService {
    const grants: seq<Grant>
    const ledger: SQLiteJournal?
    var uses: map<string, nat>

    constructor (grants: seq<Grant>, ledger: SQLiteJournal?)
      ensures this.grants == grants && this.ledger == ledger && uses == map[]
    {
      this.grants := grants;
      this.ledger := ledger;
      uses := map[];
    }

    method Check(request: Request, now: int) returns (r: Result<Decision>)
      modifies this, if ledger == null then {} else {ledger}
      ensures ledger == null ==> (r, uses) == CheckAll(false, grants, request, now, old(uses))
      ensures ledger != null ==>
                && uses == old(uses)
                && (r, ledger.capabilityUses) ==
                   CheckAll(true, grants, request, now, old(ledger.capabilityUses))
                && ledger.Contents() == old(ledger.Contents()).(capabilityUses := ledger.capabilityUses)
    {
      hide Covers, Candidates, Denial;
      var candidates := Candidates(grants, request);
      var exhausted := false;
      ghost var durable := ledger != null;
      ghost var counters := if ledger != null then ledger.capabilityUses else uses;
      for i := 0 to |candidates|
        invariant ledger == null ==> uses == counters
        invariant ledger != null ==> uses == old(uses) && ledger.Contents() == old(ledger.Contents())
        invariant CheckFrom(durable, candidates, request, now, counters, false) ==
                  CheckFrom(durable, candidates[i..], request, now, counters, exhausted)
      {
        var g := candidates[i];
        assert candidates[i..][1..] == candidates[i + 1..];
        var covers := Covers(g, request, now);
        if covers.Failure? {
          return Failure(covers.error);
        }
        if covers.value {
          var consumed;
          if ledger != null {
            var spent := ledger.TryConsume(g.capabilityId, g.maxUses);
            if spent.Failure? {
              return Failure(spent.error);
            }
            consumed := spent.value;
          } else {
            var used := if g.capabilityId in uses then uses[g.capabilityId] else 0;
            consumed := used < g.maxUses;
            if consumed {
              uses := uses[g.capabilityId := used + 1];
            }
          }
          if consumed {
            return Success(Allow(g.capabilityId, request.provenance));
          }
          exhausted := true;
        }
      }
      return Success(Denial(request, exhausted));
    }
  }

  // ----- what one check decides -------------------------------------------------------------------

  /** A candidate the loop passes over: it does not cover the request or has no use left. */
  predicate PassedOver(durable: bool, g: Grant, request: Request, now: int, uses: map<string, nat>) {
    || Covers(g, request, now) == Success(false)
    || (Covers(g, request, now) == Success(true) && Spend(durable, uses, g).0 == Success(false))
  }

  /** The first candidate that is not passed over. */
  predicate StopsAt(durable: bool, candidates: seq<Grant>, request: Request, now: int,
                    uses: map<string, nat>, i: nat)
  {
    && i < |candidates|
    && !PassedOver(durable, candidates[i], request, now, uses)
    && forall j | 0 <= j < i :: PassedOver(durable, candidates[j], request, now, uses)
  }

  /** The candidates are exactly the grants with the identity of the request, in order. */
  lemma {:induction false} CandidatesMeaning(grants: seq<Grant>, request: Request, g: Grant)
    ensures g in Candidates(grants, request) <==>
            && g in grants && g.subject == request.subject
            && g.goalId == request.goalId && g.runId == request.runId
  {
    if grants != [] {
      CandidatesMeaning(grants[1..], request, g);
      assert grants == [grants[0]] + grants[1..];
    }
  }

  /** The first candidate that is not passed over decides: it is allowed and one use of it is
      spent, or the check raises and nothing is spent. */
  lemma {:induction false} FirstUsableDecides(durable: bool, candidates: seq<Grant>, request: Request,
                                              now: int, uses: map<string, nat>, exhausted: bool, i: nat)
    requires StopsAt(durable, candidates, request, now, uses, i)
    ensures var g := candidates[i];
            CheckFrom(durable, candidates, request, now, uses, exhausted) ==
            if Covers(g, request, now).Success? && (durable ==> g.maxUses >= 1) then
              (Success(Allow(g.capabilityId, request.provenance)),
               uses[g.capabilityId := Used(uses, g.capabilityId) + 1])
            else (Failure(ValidationError), uses)
  {
    CoversCode(candidates[0], request, now);
    hide Covers;
    if i > 0 {
      var rest := candidates[1..];
      assert PassedOver(durable, candidates[0], request, now, uses);
      forall j | 0 <= j < i - 1 ensures PassedOver(durable, rest[j], request, now, uses) {
        assert rest[j] == candidates[j + 1];
      }
      var later := exhausted || Covers(candidates[0], request, now) == Success(true);
      FirstUsableDecides(durable, rest, request, now, uses, later, i - 1);
    }
  }

  /** If all candidates are passed over, the check denies, spends nothing, and tells whether some
      candidate covered the request. */
  lemma {:induction false} NothingUsableDenies(durable: bool, candidates: seq<Grant>, request: Request,
                                               now: int, uses: map<string, nat>, exhausted: bool)
    requires forall g | g in candidates :: PassedOver(durable, g, request, now, uses)
    ensures CheckFrom(durable, candidates, request, now, uses, exhausted) ==
            (Success(Denial(request, exhausted || SomeCovers(candidates, request, now))), uses)
  {
    hide Covers, Denial;
    if candidates != [] {
      var g, rest := candidates[0], candidates[1..];
      assert candidates == [g] + rest;
      assert PassedOver(durable, g, request, now, uses);
      NothingUsableDenies(durable, rest, request, now, uses,
                          exhausted || Covers(g, request, now) == Success(true));
      assert SomeCovers(candidates, request, now) <==>
             Covers(g, request, now) == Success(true) || SomeCovers(rest, request, now);
    }
  }

  predicate SomeCovers(candidates: seq<Grant>, request: Request, now: int) {
    exists g :: g in candidates && Covers(g, request, now) == Success(true)
  }

  lemma CoversCode(g: Grant, request: Request, now: int)
    ensures Covers(g, request, now).Failure? ==> Covers(g, request, now).error == ValidationError
  {
    ScopeCode(g.resources, request.resource);
  }

  lemma {:induction false} ScopeCode(scopes: seq<string>, requested: string)
    ensures AnyScope(scopes, requested).Failure? ==> AnyScope(scopes, requested).error == ValidationError
  {
    if scopes != [] {
      ScopeCode(scopes[1..], requested);
    }
  }

  /** Only ALLOW spends, and it spends one use of a grant that had one left. */
  lemma {:induction false} OnlyAllowSpends(durable: bool, candidates: seq<Grant>, request: Request, now: int,
                                           uses: map<string, nat>, exhausted: bool)
    ensures var (r, uses') := CheckFrom(durable, candidates, request, now, uses, exhausted);
            if r.Success? && r.value.Allow? then
              && uses' == uses[r.value.capabilityId := Used(uses, r.value.capabilityId) + 1]
              && exists g :: g in candidates && g.capabilityId == r.value.capabilityId
                             && Used(uses, g.capabilityId) < g.maxUses
            else uses' == uses
  {
    hide Covers, Denial;
    if candidates != [] {
      OnlyAllowSpends(durable, candidates[1..], request, now, uses, exhausted);
      OnlyAllowSpends(durable, candidates[1..], request, now, uses, true);
      assert candidates[0] in candidates;
    }
  }

  // ----- what one check means ---------------------------------------------------------------------

  /** A terminal wildcard below this directory. */
  predicate WildcardOf(scope: string, directory: string) {
    scope == directory + "/**" && '*' !in directory
  }

  /** The scope names the resource, or is a wildcard whose directory lies strictly above it. */
  ghost predicate ScopeReaches(scope: string, resource: string) {
    || ('*' !in scope && scope == resource)
    || exists directory, below :: WildcardOf(scope, directory) && below != "" && resource == directory + "/" + below
  }

  /** A star anywhere but in a terminal wildcard. */
  ghost predicate BadScope(scope: string) {
    '*' in scope && forall directory :: !WildcardOf(scope, directory)
  }

  lemma {:induction false} StarFree(text: string)
    requires Stars(text) == 0
    ensures '*' !in text
  {
    if text != "" {
      StarFree(text[1..]);
      assert text == [text[0]] + text[1..];
    }
  }

  /** `resource_matches` for any scope. */
  lemma ScopeMeaning(scope: string, resource: string)
    ensures ResourceMatches(scope, resource) ==
            if BadScope(scope) then Failure(ValidationError) else Success(ScopeReaches(scope, resource))
  {
    forall directory | WildcardOf(scope, directory)
      ensures '*' in scope && |scope| >= 3 && scope[|scope| - 3..] == "/**" && Stars(scope) == 2
      ensures ResourceMatches(scope, resource) ==
              Success(exists below :: below != "" && resource == directory + "/" + below)
    {
      WildcardShape(scope, directory);
      WildcardMeaning(directory, resource);
    }
    if '*' in scope && |scope| >= 3 && scope[|scope| - 3..] == "/**" && Stars(scope) == 2 {
      var directory := scope[..|scope| - 3];
      assert scope == directory + "/**";
      StarsOfConcat(directory, "/**");
      TwoStars();
      StarFree(directory);
      assert WildcardOf(scope, directory);
      OneDirectory(scope, directory);
    }
  }

  lemma WildcardShape(scope: string, directory: string)
    requires WildcardOf(scope, directory)
    ensures '*' in scope && |scope| >= 3 && scope[|scope| - 3..] == "/**" && Stars(scope) == 2
  {
    StarsOfConcat(directory, "/**");
    TwoStars();
    NoStars(directory);
    assert scope[|scope| - 1] == '*';
  }

  lemma TwoStars()
    ensures Stars("/**") == 2
  {
    assert "/**"[1..] == "**" && "**"[1..] == "*" && "*"[1..] == "";
  }

  lemma OneDirectory(scope: string, directory: string)
    requires WildcardOf(scope, directory)
    ensures forall other | WildcardOf(scope, other) :: other == directory
  {
    forall other | WildcardOf(scope, other) ensures other == directory {
      assert scope[..|scope| - 3] == other && scope[..|scope| - 3] == directory;
    }
  }

  /** Looking for a scope that reaches the resource meets a bad one first. */
  ghost predicate MeetsBadScope(scopes: seq<string>, resource: string) {
    exists i :: 0 <= i < |scopes| && BadScope(scopes[i])
                && forall j | 0 <= j < i :: !ScopeReaches(scopes[j], resource)
  }

  lemma {:induction false} ScopesMeaning(scopes: seq<string>, resource: string)
    ensures AnyScope(scopes, resource) ==
            if MeetsBadScope(scopes, resource) then Failure(ValidationError)
            else Success(exists scope :: scope in scopes && ScopeReaches(scope, resource))
  {
    hide ResourceMatches, ScopeReaches, BadScope;
    if scopes != [] {
      var rest := scopes[1..];
      ScopeMeaning(scopes[0], resource);
      ScopesMeaning(rest, resource);
      FirstScope(scopes, resource);
      assert scopes == [scopes[0]] + rest;
      hide MeetsBadScope;
    }
  }

  lemma FirstScope(scopes: seq<string>, resource: string)
    requires scopes != []
    ensures MeetsBadScope(scopes, resource) <==>
            || BadScope(scopes[0])
            || (!ScopeReaches(scopes[0], resource) && MeetsBadScope(scopes[1..], resource))
  {
    hide ScopeReaches, BadScope;
    var rest := scopes[1..];
    if MeetsBadScope(rest, resource) && !ScopeReaches(scopes[0], resource) {
      var i :| 0 <= i < |rest| && BadScope(rest[i]) && forall j | 0 <= j < i :: !ScopeReaches(rest[j], resource);
      assert BadScope(scopes[i + 1]);
      forall j | 0 <= j < i + 1 ensures !ScopeReaches(scopes[j], resource) {
        if j > 0 { assert rest[j - 1] == scopes[j]; }
      }
    }
    if MeetsBadScope(scopes, resource) && !BadScope(scopes[0]) {
      var i :| 0 <= i < |scopes| && BadScope(scopes[i]) && forall j | 0 <= j < i :: !ScopeReaches(scopes[j], resource);
      assert BadScope(rest[i - 1]);
      forall j | 0 <= j < i - 1 ensures !ScopeReaches(rest[j], resource) {
        assert rest[j] == scopes[j + 1];
      }
    }
  }

  /** For this identity, in force now, and for this action. */
  predicate Applies(g: Grant, request: Request, now: int) {
    && g.subject == request.subject && g.goalId == request.goalId && g.runId == request.runId
    && g.notBefore <= now < g.expiresAt && request.action in g.actions
  }

  ghost predicate Permits(g: Grant, request: Request, now: int) {
    && Applies(g, request, now)
    && !MeetsBadScope(g.resources, request.resource)
    && exists scope :: scope in g.resources && ScopeReaches(scope, request.resource)
  }

  /** The grant permits the request and has a use left. */
  ghost predicate Usable(g: Grant, request: Request, now: int, uses: map<string, nat>) {
    Permits(g, request, now) && (if g.capabilityId in uses then uses[g.capabilityId] else 0) < g.maxUses
  }

  /** The grant makes the check raise: for a bad scope, or for a durable budget that is empty. */
  ghost predicate Blocks(durable: bool, g: Grant, request: Request, now: int) {
    || (Applies(g, request, now) && MeetsBadScope(g.resources, request.resource))
    || (durable && Permits(g, request, now) && g.maxUses < 1)
  }

  /** The first grant of the service that is usable or blocks. */
  ghost predicate Decides(durable: bool, grants: seq<Grant>, request: Request, now: int, uses: map<string, nat>,
                          i: nat)
  {
    && i < |grants|
    && (Usable(grants[i], request, now, uses) || Blocks(durable, grants[i], request, now))
    && forall j | 0 <= j < i ::
         !Usable(grants[j], request, now, uses) && !Blocks(durable, grants[j], request, now)
  }

  /** What one check answers, in terms of the grants alone.  The first grant that is usable or blocks
      decides: it is allowed, and one use of it is counted, or the check raises.  Without such a grant
      the check denies, counts nothing, tells whether some grant permitted the request, and flags an
      expansion from untrusted material. */
  lemma CheckMeaning(durable: bool, grants: seq<Grant>, request: Request, now: int, uses: map<string, nat>)
    ensures forall i: nat | Decides(durable, grants, request, now, uses, i) ::
              var c := grants[i].capabilityId;
              CheckAll(durable, grants, request, now, uses) ==
              if Usable(grants[i], request, now, uses) then
                (Success(Allow(c, request.provenance)), uses[c := (if c in uses then uses[c] else 0) + 1])
              else (Failure(ValidationError), uses)
    ensures (forall i: nat :: !Decides(durable, grants, request, now, uses, i)) ==>
              CheckAll(durable, grants, request, now, uses) ==
              (Success(Deny(exists g :: g in grants && Permits(g, request, now), request.provenance,
                            exists p :: p in request.provenance && p != TrustedControl && p != AuthorizedUser)),
               uses)
  {
    hide Usable, Blocks, Permits, Candidates, CheckFrom, Denial;
    forall i: nat | Decides(durable, grants, request, now, uses, i)
      ensures CheckAll(durable, grants, request, now, uses) ==
              Stopped(grants[i], request, uses, Usable(grants[i], request, now, uses))
    {
      DecidedByFirst(durable, grants, request, now, uses, false, i);
    }
    if forall i: nat :: !Decides(durable, grants, request, now, uses, i) {
      NoneDecides(durable, grants, request, now, uses);
      DeniedByAll(durable, grants, request, now, uses, false);
      DenialFlags(request, exists g :: g in grants && Permits(g, request, now));
    }
  }

  /** A capability is allowed if and only if its grant is the first that is usable or blocks, and is
      usable. */
  lemma AllowsExactly(durable: bool, grants: seq<Grant>, request: Request, now: int, uses: map<string, nat>,
                      capabilityId: string)
    ensures CheckAll(durable, grants, request, now, uses).0 == Success(Allow(capabilityId, request.provenance)) <==>
            exists i: nat :: && Decides(durable, grants, request, now, uses, i)
                             && Usable(grants[i], request, now, uses) && grants[i].capabilityId == capabilityId
  {
    hide Usable, Blocks, Permits, CheckAll;
    CheckMeaning(durable, grants, request, now, uses);
  }

  function Stopped(g: Grant, request: Request, uses: map<string, nat>, usable: bool)
    : (Result<Decision>, map<string, nat>)
  {
    var c := g.capabilityId;
    if usable then
      (Success(Allow(c, request.provenance)), uses[c := (if c in uses then uses[c] else 0) + 1])
    else (Failure(ValidationError), uses)
  }

  lemma DenialFlags(request: Request, exhausted: bool)
    ensures Denial(request, exhausted) ==
            Deny(exhausted, request.provenance,
                 exists p :: p in request.provenance && p != TrustedControl && p != AuthorizedUser)
  {
    assert forall p: Provenance :: Untrusted(p) <==> p != TrustedControl && p != AuthorizedUser;
  }

  /** One candidate at a time. */
  lemma CandidateMeaning(durable: bool, g: Grant, request: Request, now: int, uses: map<string, nat>)
    requires g.subject == request.subject && g.goalId == request.goalId && g.runId == request.runId
    ensures Covers(g, request, now) ==
            if Applies(g, request, now) && MeetsBadScope(g.resources, request.resource) then Failure(ValidationError)
            else Success(Permits(g, request, now))
  {
    ScopesMeaning(g.resources, request.resource);
    hide AnyScope, MeetsBadScope, ScopeReaches;
  }

  lemma FirstGrant(durable: bool, grants: seq<Grant>, request: Request, now: int, uses: map<string, nat>, i: nat)
    requires Decides(durable, grants, request, now, uses, i) && i > 0
    ensures Decides(durable, grants[1..], request, now, uses, i - 1)
    ensures !Usable(grants[0], request, now, uses) && !Blocks(durable, grants[0], request, now)
  {
    hide Usable, Blocks;
    forall j | 0 <= j < i - 1
      ensures !Usable(grants[1..][j], request, now, uses) && !Blocks(durable, grants[1..][j], request, now)
    {
      assert grants[1..][j] == grants[j + 1];
    }
  }

  /** A grant that neither is usable nor blocks is passed over. */
  lemma PassedGrant(durable: bool, grants: seq<Grant>, request: Request, now: int, uses: map<string, nat>,
                    exhausted: bool)
    requires grants != []
    requires !Usable(grants[0], request, now, uses) && !Blocks(durable, grants[0], request, now)
    ensures CheckFrom(durable, Candidates(grants, request), request, now, uses, exhausted) ==
            CheckFrom(durable, Candidates(grants[1..], request), request, now, uses,
                      exhausted || Permits(grants[0], request, now))
  {
    var g := grants[0];
    hide Covers, MeetsBadScope, ScopeReaches;
    if g.subject == request.subject && g.goalId == request.goalId && g.runId == request.runId {
      CandidateMeaning(durable, g, request, now, uses);
      assert Candidates(grants, request)[1..] == Candidates(grants[1..], request);
    }
  }

  lemma {:induction false} DecidedByFirst(durable: bool, grants: seq<Grant>, request: Request, now: int,
                                          uses: map<string, nat>, exhausted: bool, i: nat)
    requires Decides(durable, grants, request, now, uses, i)
    ensures CheckFrom(durable, Candidates(grants, request), request, now, uses, exhausted) ==
            Stopped(grants[i], request, uses, Usable(grants[i], request, now, uses))
  {
    hide Usable, Blocks, Permits, Candidates, CheckFrom, Stopped;
    if i > 0 {
      FirstGrant(durable, grants, request, now, uses, i);
      hide Decides;
      PassedGrant(durable, grants, request, now, uses, exhausted);
      DecidedByFirst(durable, grants[1..], request, now, uses, exhausted || Permits(grants[0], request, now), i - 1);
    } else {
      FirstDecides(durable, grants, request, now, uses, exhausted);
    }
  }

  lemma FirstDecides(durable: bool, grants: seq<Grant>, request: Request, now: int, uses: map<string, nat>,
                     exhausted: bool)
    requires Decides(durable, grants, request, now, uses, 0)
    ensures CheckFrom(durable, Candidates(grants, request), request, now, uses, exhausted) ==
            Stopped(grants[0], request, uses, Usable(grants[0], request, now, uses))
  {
    hide Covers, MeetsBadScope, ScopeReaches;
    CandidateMeaning(durable, grants[0], request, now, uses);
  }

  lemma {:induction false} DeniedByAll(durable: bool, grants: seq<Grant>, request: Request, now: int,
                                       uses: map<string, nat>, exhausted: bool)
    requires forall g | g in grants :: !Usable(g, request, now, uses) && !Blocks(durable, g, request, now)
    ensures CheckFrom(durable, Candidates(grants, request), request, now, uses, exhausted) ==
            (Success(Denial(request, exhausted || exists g :: g in grants && Permits(g, request, now))), uses)
  {
    hide Usable, Blocks, Permits, Denial;
    if grants != [] {
      assert grants[0] in grants && grants == [grants[0]] + grants[1..];
      PassedGrant(durable, grants, request, now, uses, exhausted);
      DeniedByAll(durable, grants[1..], request, now, uses, exhausted || Permits(grants[0], request, now));
      hide Candidates, CheckFrom;
      assert (exists g :: g in grants && Permits(g, request, now)) <==>
             Permits(grants[0], request, now) || exists g :: g in grants[1..] && Permits(g, request, now);
    }
  }

  lemma {:induction false} NoneDecides(durable: bool, grants: seq<Grant>, request: Request, now: int,
                                       uses: map<string, nat>)
    requires forall i: nat :: !Decides(durable, grants, request, now, uses, i)
    ensures forall g | g in grants :: !Usable(g, request, now, uses) && !Blocks(durable, g, request, now)
  {
    hide Usable, Blocks;
    var n := 0;
    while n < |grants|
      invariant n <= |grants|
      invariant forall j | 0 <= j < n ::
                  !Usable(grants[j], request, now, uses) && !Blocks(durable, grants[j], request, now)
    {
      assert !Decides(durable, grants, request, now, uses, n);
      n := n + 1;
    }
  }

  // ----- budgets over any history -----------------------------------------------------------------

  /** A call to one of several services that share their counters. */
  datatype Call = Call(service: nat, request: Request, now: int)

  /** All calls served one after another. */
  function Serve(durable: bool, services: seq<seq<Grant>>, calls: seq<Call>, uses: map<string, nat>)
    : (seq<Result<Decision>>, map<string, nat>)
    requires forall c | c in calls :: c.service < |services|
  {
    if calls == [] then ([], uses)
    else
      var n := |calls| - 1;
      var done := Serve(durable, services, calls[..n], uses);
      var out := CheckAll(durable, services[calls[n].service], calls[n].request, calls[n].now, done.1);
      (done.0 + [out.0], out.1)
  }

  function Allows(decisions: seq<Result<Decision>>, capabilityId: string): nat {
    if decisions == [] then 0
    else
      var last := decisions[|decisions| - 1];
      Allows(decisions[..|decisions| - 1], capabilityId)
      + if last.Success? && last.value.Allow? && last.value.capabilityId == capabilityId then 1 else 0
  }

  /** Over any history, across all services that share the counters, the decisions that allowed a
      capability are exactly its counted uses, and never more than the largest budget any of its
      grants declares. */
  lemma {:induction false} BudgetHolds(durable: bool, services: seq<seq<Grant>>, calls: seq<Call>,
                                       capabilityId: string, budget: nat)
    requires forall c | c in calls :: c.service < |services|
    requires forall i, g | 0 <= i < |services| && g in services[i] && g.capabilityId == capabilityId ::
               g.maxUses <= budget
    ensures var (decisions, uses) := Serve(durable, services, calls, map[]);
            && Allows(decisions, capabilityId) == Used(uses, capabilityId)
            && Allows(decisions, capabilityId) <= budget
  {
    if calls != [] {
      var n := |calls| - 1;
      BudgetHolds(durable, services, calls[..n], capabilityId, budget);
      var done := Serve(durable, services, calls[..n], map[]);
      var call := calls[n];
      assert call in calls;
      var candidates := Candidates(services[call.service], call.request);
      OnlyAllowSpends(durable, candidates, call.request, call.now, done.1, false);
      forall g | g in candidates && g.capabilityId == capabilityId ensures g.maxUses <= budget {
        CandidatesMeaning(services[call.service], call.request, g);
      }
      hide Candidates, CheckFrom;
      var out := CheckAll(durable, services[call.service], call.request, call.now, done.1);
      assert (done.0 + [out.0])[..|done.0|] == done.0;
    }
  }

  // ----- in memory and durable --------------------------------------------------------------------

  /** The loop comes to a grant that covers the request and declares no use at all. */
  predicate MeetsEmptyBudget(candidates: seq<Grant>, request: Request, now: int, uses: map<string, nat>) {
    exists i: nat | i < |candidates| ::
      && candidates[i].maxUses < 1 && Covers(candidates[i], request, now) == Success(true)
      && forall j | 0 <= j < i :: PassedOver(true, candidates[j], request, now, uses)
  }

  lemma {:induction false} EmptyBudgetRaises(candidates: seq<Grant>, request: Request, now: int,
                                             uses: map<string, nat>, exhausted: bool)
    requires MeetsEmptyBudget(candidates, request, now, uses)
    ensures CheckFrom(true, candidates, request, now, uses, exhausted) == (Failure(ValidationError), uses)
  {
    var i: nat :| i < |candidates| && candidates[i].maxUses < 1
                  && Covers(candidates[i], request, now) == Success(true)
                  && forall j | 0 <= j < i :: PassedOver(true, candidates[j], request, now, uses);
    FirstUsableDecides(true, candidates, request, now, uses, exhausted, i);
  }

  lemma {:induction false} PositiveBudgetsAgree(candidates: seq<Grant>, request: Request, now: int,
                                                uses: map<string, nat>, exhausted: bool)
    requires !MeetsEmptyBudget(candidates, request, now, uses)
    ensures CheckFrom(true, candidates, request, now, uses, exhausted) ==
            CheckFrom(false, candidates, request, now, uses, exhausted)
  {
    hide Covers, Denial;
    if candidates != [] {
      var g, rest := candidates[0], candidates[1..];
      if PassedOver(true, g, request, now, uses) {
        assert !MeetsEmptyBudget(rest, request, now, uses) by {
          if MeetsEmptyBudget(rest, request, now, uses) {
            EmptyBudgetLater(candidates, request, now, uses);
          }
        }
        PositiveBudgetsAgree(rest, request, now, uses, exhausted);
        PositiveBudgetsAgree(rest, request, now, uses, true);
      }
    }
  }

  /** The two kinds of counters decide alike exactly when the loop meets no empty budget, or when
      the check in memory raises at a malformed scope further on. */
  lemma CountersAgree(candidates: seq<Grant>, request: Request, now: int, uses: map<string, nat>,
                      exhausted: bool)
    ensures CheckFrom(true, candidates, request, now, uses, exhausted) ==
            CheckFrom(false, candidates, request, now, uses, exhausted)
            <==>
            || !MeetsEmptyBudget(candidates, request, now, uses)
            || CheckFrom(false, candidates, request, now, uses, exhausted).0.Failure?
  {
    OnlyAllowSpends(false, candidates, request, now, uses, exhausted);
    OneCode(candidates, request, now, uses, exhausted);
    hide MeetsEmptyBudget, CheckFrom;
    if MeetsEmptyBudget(candidates, request, now, uses) {
      EmptyBudgetRaises(candidates, request, now, uses, exhausted);
    } else {
      PositiveBudgetsAgree(candidates, request, now, uses, exhausted);
    }
  }

  lemma {:induction false} OneCode(candidates: seq<Grant>, request: Request, now: int, uses: map<string, nat>,
                                   exhausted: bool)
    ensures var r := CheckFrom(false, candidates, request, now, uses, exhausted).0;
            r.Failure? ==> r.error == ValidationError
  {
    hide Denial;
    if candidates != [] {
      CoversCode(candidates[0], request, now);
      hide Covers;
      OneCode(candidates[1..], request, now, uses, exhausted);
      OneCode(candidates[1..], request, now, uses, true);
    }
  }

  lemma EmptyBudgetLater(candidates: seq<Grant>, request: Request, now: int, uses: map<string, nat>)
    requires candidates != [] && PassedOver(true, candidates[0], request, now, uses)
    requires MeetsEmptyBudget(candidates[1..], request, now, uses)
    ensures MeetsEmptyBudget(candidates, request, now, uses)
  {
    var rest := candidates[1..];
    var i: nat :| i < |rest| && rest[i].maxUses < 1 && Covers(rest[i], request, now) == Success(true)
                  && forall j | 0 <= j < i :: PassedOver(true, rest[j], request, now, uses);
    hide Covers, PassedOver;
    forall j | 0 <= j < i + 1 ensures PassedOver(true, candidates[j], request, now, uses) {
      if j > 0 {
        assert candidates[j] == rest[j - 1];
      }
    }
    assert candidates[i + 1] == rest[i];
  }

  /** Where every grant declares a use, histories are decided call by call alike. */
  lemma {:induction false} HistoriesAgree(services: seq<seq<Grant>>, calls: seq<Call>, uses: map<string, nat>)
    requires forall c | c in calls :: c.service < |services|
    requires forall i, g | 0 <= i < |services| && g in services[i] :: g.maxUses >= 1
    ensures Serve(true, services, calls, uses) == Serve(false, services, calls, uses)
  {
    if calls != [] {
      var n := |calls| - 1;
      HistoriesAgree(services, calls[..n], uses);
      var call := calls[n];
      assert call in calls;
      var candidates := Candidates(services[call.service], call.request);
      forall g | g in candidates ensures g.maxUses >= 1 {
        CandidatesMeaning(services[call.service], call.request, g);
      }
      var done := Serve(true, services, calls[..n], uses);
      hide Covers, CheckFrom, Candidates, PassedOver;
      assert !MeetsEmptyBudget(candidates, call.request, call.now, done.1);
      PositiveBudgetsAgree(candidates, call.request, call.now, done.1, false);
    }
  }

  /** A grant without uses: the service that counts in memory denies, the durable one raises. */
  lemma EmptyBudgetsDiffer()
    ensures var g := Grant("c", "s", "g", "r", ["a"], ["x"], 0, 9, 0);
            var request := Request("s", "g", "r", "a", "x", []);
            && CheckAll(false, [g], request, 1, map[]).0 == Success(Denial(request, true))
            && CheckAll(true, [g], request, 1, map[]).0 == Failure(ValidationError)
  {
    var g := Grant("c", "s", "g", "r", ["a"], ["x"], 0, 9, 0);
    var request := Request("s", "g", "r", "a", "x", []);
    assert Candidates([g], request) == [g];
    assert ResourceMatches("x", "x") == Success(true);
    assert AnyScope(["x"], "x") == Success(true);
    assert Covers(g, request, 1) == Success(true);
  }
}
