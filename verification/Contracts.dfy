/** An electronic contract: the safety recheck that gates signing, the signing session, and the provider's webhooks. */
module Contracts {
  import opened Common

  datatype Status = Draft | SigningPending | PartiallySigned | Signed | Declined | Cancelled | Expired | Failed

  /** What a webhook may report: every status but DRAFT. */
  type Reported = s: Status | s != Draft witness SigningPending

  datatype Provider = Modoosign | EformSign | Government

  datatype PartyStatus = Waiting | Viewed | HasSigned | HasDeclined

  datatype Role = Member | Registrant

  datatype RecheckStatus = Running | Passed | Blocked | Unavailable

  /** What the registry and guarantee providers answered. */
  datatype Evidence = Evidence(
    registryClear: bool,
    ownerMatched: bool,
    criticalRisk: bool,
    guaranteeEligible: bool,
    issuedAt: int,
    registryCheckedAt: int,
    guaranteeCheckedAt: int)

  datatype Recheck = Recheck(status: RecheckStatus, startedAt: int, evidence: Option<Evidence>, expiresAt: Option<int>)

  datatype Source = Platform | Webhook

  datatype Entry = Entry(previous: Option<Status>, next: Status, source: Source, at: int)

  datatype Move = Move(role: Role, status: PartyStatus)

  /** Rechecks are in attempt order. */
  datatype Contract = Contract(
    jeonse: bool,
    domestic: bool,
    provider: Provider,
    status: Status,
    session: Option<string>,
    document: bool,
    hash: Option<string>,
    parties: map<Role, PartyStatus>,
    history: seq<Entry>,
    rechecks: seq<Recheck>)

  const RECHECK_VALID := 30 * MINUTE
  const RUNNING_TIMEOUT := 2 * MINUTE
  const REGISTRY_MAX_AGE := 24 * HOUR
  const CLOCK_SKEW := 5 * MINUTE

  function Created(jeonse: bool, domestic: bool, provider: Provider, at: int): Contract {
    Contract(jeonse, domestic, provider, Draft, None, false, None, map[Member := Waiting, Registrant := Waiting],
             [Entry(None, Draft, Platform, at)], [])
  }

  // ---------- the safety recheck ----------

  predicate Timely(e: Evidence, now: int) {
    && e.issuedAt <= now + CLOCK_SKEW && e.registryCheckedAt <= now + CLOCK_SKEW && e.guaranteeCheckedAt <= now + CLOCK_SKEW
    && now - e.issuedAt <= REGISTRY_MAX_AGE
    && now - e.registryCheckedAt <= RECHECK_VALID
    && now - e.guaranteeCheckedAt <= RECHECK_VALID
  }

  predicate Clean(e: Evidence) {
    e.registryClear && e.ownerMatched && !e.criticalRisk && e.guaranteeEligible
  }

  /** How the provider call of a recheck ended; Crashed leaves the attempt running. */
  datatype Answer = Got(evidence: Evidence) | Unreachable | Crashed

  function Completed(now: int, answer: Answer): Recheck {
    match answer
    case Got(e) =>
      if Timely(e, now) && Clean(e)
      then Recheck(Passed, now, Some(e), Some(Min(now + RECHECK_VALID, e.issuedAt + REGISTRY_MAX_AGE)))
      else Recheck(Blocked, now, Some(e), None)
    case Unreachable => Recheck(Unavailable, now, None, None)
    case Crashed => Recheck(Running, now, None, None)
  }

  datatype Ruling = NotRequired | Unsupported | WrongStatus | Busy | Checked(recheck: Recheck)

  predicate Startable(s: Status) {
    s == Draft || s == Failed
  }

  predicate Reusable(c: Contract, now: int) {
    c.rechecks != [] &&
    var last := c.rechecks[|c.rechecks| - 1];
    last.status == Passed && last.expiresAt.Some? && last.expiresAt.value > now
  }

  predicate Underway(c: Contract, now: int) {
    c.rechecks != [] &&
    var last := c.rechecks[|c.rechecks| - 1];
    last.status == Running && now - last.startedAt < RUNNING_TIMEOUT
  }

  function Recheckup(c: Contract, now: int, force: bool, answer: Answer): (Contract, Ruling) {
    if !c.jeonse then (c, NotRequired)
    else if !c.domestic then (c, Unsupported)
    else if !Startable(c.status) then (c, WrongStatus)
    else if !force && Reusable(c, now) then (c, Checked(c.rechecks[|c.rechecks| - 1]))
    else if Underway(c, now) then (c, Busy)
    else
      var r := Completed(now, answer);
      (c.(rechecks := c.rechecks + [r]), Checked(r))
  }

  predicate Clears(r: Ruling) {
    r.NotRequired? || (r.Checked? && r.recheck.status == Passed)
  }

  // ---------- signing ----------

  function Moved(c: Contract, next: Status, source: Source, at: int): Contract {
    c.(status := next, history := c.history + [Entry(Some(c.status), next, source, at)])
  }

  /** The first half: behind a clearing recheck the contract is claimed for signing; true when it was. The recheck is made
      as of now, and the claim follows at its own instant, when the provider has answered. */
  function ClaimAt(c: Contract, now: int, at: int, answer: Answer): (Contract, bool) {
    if !Startable(c.status) then (c, false)
    else
      var (c', ruling) := Recheckup(c, now, false, answer);
      if Clears(ruling) then (Moved(c', SigningPending, Platform, at), true) else (c', false)
  }

  function Claim(c: Contract, now: int, answer: Answer): (Contract, bool) {
    ClaimAt(c, now, now, answer)
  }

  /** The second half when the provider opened a session: the session is stored, whatever the status is by now. */
  function OpenSession(c: Contract, session: string): Contract {
    c.(session := Some(session))
  }

  /** The second half when it did not: FAILED is written, whatever the status is by now. */
  function FailSession(c: Contract, now: int): Contract {
    c.(status := Failed, history := c.history + [Entry(Some(SigningPending), Failed, Platform, now)])
  }

  /** Both halves with nothing in between; session is None when the provider could not open one. */
  function StartSigning(c: Contract, now: int, answer: Answer, session: Option<string>): Contract {
    var (c', claimed) := Claim(c, now, answer);
    if !claimed then c' else if session.Some? then OpenSession(c', session.value) else FailSession(c', now)
  }

  // ---------- webhooks ----------

  datatype Payload = Payload(
    session: string,
    status: Reported,
    parties: Option<seq<Move>>,
    document: bool,
    hash: Option<string>)

  predicate Final(s: Status) {
    s == Signed || s == Declined || s == Cancelled || s == Expired
  }

  predicate CanTransition(current: Status, next: Status) {
    if current == next || Final(current) then false
    else if next == SigningPending then current == Draft || current == Failed
    else current != Draft
  }

  predicate HexDigit(ch: char) {
    '0' <= ch <= '9' || 'a' <= ch <= 'f' || 'A' <= ch <= 'F'
  }

  predicate Hex64(h: string) {
    |h| == 64 && forall i :: 0 <= i < |h| ==> HexDigit(h[i])
  }

  function LowerChar(ch: char): char {
    if 'A' <= ch <= 'Z' then ch - 'A' + 'a' else ch
  }

  function Lower(h: string): (r: string)
    ensures |r| == |h| && forall i :: 0 <= i < |r| ==> r[i] == LowerChar(h[i])
  {
    seq(|h|, i requires 0 <= i < |h| => LowerChar(h[i]))
  }

  function MovedParty(current: PartyStatus, next: PartyStatus): PartyStatus {
    match next
    case Waiting => current
    case Viewed => if current == Waiting then Viewed else current
    case _ => if current == Waiting || current == Viewed then next else current
  }

  function UpdatedParties(parties: map<Role, PartyStatus>, moves: seq<Move>): map<Role, PartyStatus>
    decreases |moves|
  {
    if moves == [] then parties
    else
      var before := UpdatedParties(parties, moves[..|moves| - 1]);
      var m := moves[|moves| - 1];
      if m.role in before then before[m.role := MovedParty(before[m.role], m.status)] else before
  }

  function PartyMoves(p: Payload): seq<Move> {
    if p.parties.Some? then p.parties.value
    else if p.status == Signed then [Move(Member, HasSigned), Move(Registrant, HasSigned)]
    else []
  }

  /** Received is what stands while a transmission is being processed. */
  datatype Verdict = Received | Processed | Ignored | Broken

  /** What becomes of processing: it runs to its end, its transaction fails, or the process stops before any answer. */
  datatype Fate = Completes | Loses | Stops

  predicate Undocumented(p: Payload) {
    p.status == Signed && (!p.document || p.hash.None? || !Hex64(p.hash.value))
  }

  function Accepted(c: Contract, p: Payload, now: int): Contract {
    Moved(c, p.status, Webhook, now).(
      document := c.document || p.document,
      hash := if p.hash.Some? then Some(Lower(p.hash.value)) else c.hash,
      parties := UpdatedParties(c.parties, PartyMoves(p)))
  }

  /** The write of a webhook that was decided on an earlier status, whatever the status is by now. */
  function AcceptedLate(c: Contract, seen: Status, p: Payload, now: int): Contract {
    Accepted(c, p, now).(history := c.history + [Entry(Some(seen), p.status, Webhook, now)])
  }

  predicate Acceptable(c: Contract, provider: Provider, p: Payload) {
    c.session == Some(p.session) && c.provider == provider && CanTransition(c.status, p.status) && !Undocumented(p)
  }

  function Process(c: Contract, provider: Provider, p: Payload, now: int, fate: Fate): (Contract, Verdict) {
    if fate == Stops then (c, Received)
    else if c.session != Some(p.session) || c.provider != provider then (c, Ignored)
    else if !CanTransition(c.status, p.status) then (c, Ignored)
    else if Undocumented(p) || fate == Loses then (c, Broken)
    else (Accepted(c, p, now), Processed)
  }

  datatype Event = Event(digest: string, verdict: Verdict)

  /** The contract and the webhook transmissions received so far. */
  datatype World = World(contract: Contract, events: map<(Provider, string), Event>)

  predicate Refused(w: World, key: (Provider, string), digest: string) {
    key in w.events && (w.events[key].digest != digest || w.events[key].verdict != Broken)
  }

  function Handle(w: World, provider: Provider, id: string, digest: string, p: Payload, now: int, fate: Fate): World {
    if Refused(w, (provider, id), digest) then w
    else
      var (c', verdict) := Process(w.contract, provider, p, now, fate);
      World(c', w.events[(provider, id) := Event(digest, verdict)])
  }

  // ---------- runs ----------

  datatype Step =
    | RecheckStep(now: int, force: bool, answer: Answer)
    | SignStep(now: int, answer: Answer, session: Option<string>)
    | WebhookStep(provider: Provider, id: string, digest: string, payload: Payload, now: int, fate: Fate)

  function Next(w: World, s: Step): World {
    match s
    case RecheckStep(now, force, answer) => w.(contract := Recheckup(w.contract, now, force, answer).0)
    case SignStep(now, answer, session) => w.(contract := StartSigning(w.contract, now, answer, session))
    case WebhookStep(provider, id, digest, p, now, fate) => Handle(w, provider, id, digest, p, now, fate)
  }

  function Run(w: World, steps: seq<Step>): World
    decreases |steps|
  {
    if steps == [] then w else Run(Next(w, steps[0]), steps[1..])
  }

  // ---------- what every run keeps ----------

  /** The recheck vouches for the contract at this instant. */
  predicate Covers(r: Recheck, at: int) {
    && r.status == Passed && r.evidence.Some? && r.expiresAt.Some? && Clean(r.evidence.value)
    && at <= r.expiresAt.value
    && at - r.evidence.value.issuedAt <= 24 * HOUR
    && at - r.evidence.value.registryCheckedAt <= 60 * MINUTE
    && at - r.evidence.value.guaranteeCheckedAt <= 60 * MINUTE
  }

  ghost predicate Vouched(rechecks: seq<Recheck>, at: int) {
    exists k :: 0 <= k < |rechecks| && Covers(rechecks[k], at)
  }

  /** Entry i follows entry i - 1; DRAFT is left only by the platform opening a signing session. */
  ghost predicate Link(h: seq<Entry>, i: nat)
    requires 0 < i < |h|
  {
    && h[i].previous == Some(h[i - 1].next)
    && h[i].next != h[i - 1].next && h[i].next != Draft && !Final(h[i - 1].next)
    && (i == 1 ==> h[i].next == SigningPending && h[i].source == Platform)
  }

  ghost predicate Chain(c: Contract) {
    && |c.history| > 0
    && c.history[0].previous == None && c.history[0].next == Draft
    && (forall i: nat :: 0 < i < |c.history| ==> Link(c.history, i))
    && c.history[|c.history| - 1].next == c.status
  }

  ghost predicate RecheckOk(r: Recheck) {
    r.status == Passed ==>
      && r.evidence.Some? && r.expiresAt.Some? && Clean(r.evidence.value) && Timely(r.evidence.value, r.startedAt)
      && r.expiresAt.value == Min(r.startedAt + RECHECK_VALID, r.evidence.value.issuedAt + REGISTRY_MAX_AGE)
  }

  predicate Opened(e: Entry) {
    e.source == Platform && e.next == SigningPending
  }

  /** Each time the platform opened a signing session for a deposit lease, some recheck vouched for that instant. */
  ghost predicate Gated(c: Contract) {
    c.jeonse ==> forall i :: 0 <= i < |c.history| && Opened(c.history[i]) ==> Vouched(c.rechecks, c.history[i].at)
  }

  ghost predicate Inv(c: Contract) {
    && Chain(c)
    && (forall k :: 0 <= k < |c.rechecks| ==> RecheckOk(c.rechecks[k]))
    && Gated(c)
    && (c.session.Some? ==> c.status != Draft)
    && (c.status == Signed ==> c.document && c.hash.Some? && Hex64(c.hash.value))
    && c.parties.Keys == {Member, Registrant}
  }

  lemma MovedKeepsChain(c: Contract, next: Status, source: Source, at: int)
    requires Chain(c) && !Final(c.status) && next != c.status && next != Draft
    requires c.status == Draft ==> next == SigningPending && source == Platform
    ensures Chain(Moved(c, next, source, at))
  {
    var h, h' := c.history, Moved(c, next, source, at).history;
    assert |h| == 1 ==> c.status == Draft;
    assert |h| > 1 ==> Link(h, |h| - 1);
    forall i: nat | 0 < i < |h'|
      ensures Link(h', i)
    {
      assert h'[i - 1] == h[i - 1];
      if i < |h| {
        assert Link(h, i) && h'[i] == h[i];
      }
    }
  }

  lemma MovedKeepsGate(c: Contract, next: Status, source: Source, at: int)
    requires Gated(c)
    requires c.jeonse && source == Platform && next == SigningPending ==> Vouched(c.rechecks, at)
    ensures Gated(Moved(c, next, source, at))
  {
    var h, h' := c.history, Moved(c, next, source, at).history;
    assert forall i :: 0 <= i < |h| ==> h'[i] == h[i];
  }

  lemma MoreRechecksKeepGate(c: Contract, r: Recheck)
    requires Gated(c)
    ensures Gated(c.(rechecks := c.rechecks + [r]))
  {
    if c.jeonse {
      forall i | 0 <= i < |c.history| && Opened(c.history[i])
        ensures Vouched(c.rechecks + [r], c.history[i].at)
      {
        var k :| 0 <= k < |c.rechecks| && Covers(c.rechecks[k], c.history[i].at);
        assert (c.rechecks + [r])[k] == c.rechecks[k];
      }
    }
  }

  /** A recheck that clears the contract, whether fresh or reused, vouches for the instant it is used at. */
  lemma ClearedIsCovered(c: Contract, now: int, answer: Answer)
    requires Inv(c) && c.jeonse && Clears(Recheckup(c, now, false, answer).1)
    ensures Vouched(Recheckup(c, now, false, answer).0.rechecks, now)
  {
    var c' := Recheckup(c, now, false, answer).0;
    var k := |c'.rechecks| - 1;
    assert Reusable(c, now) ==> RecheckOk(c.rechecks[k]);
    assert Covers(c'.rechecks[k], now);
  }

  lemma RecheckupKeepsInv(c: Contract, now: int, force: bool, answer: Answer)
    requires Inv(c)
    ensures Inv(Recheckup(c, now, force, answer).0)
  {
    var r := Completed(now, answer);
    assert RecheckOk(r);
    MoreRechecksKeepGate(c, r);
  }

  lemma PlatformMoveKeepsInv(c: Contract, next: Status, now: int)
    requires Inv(c) && !Final(c.status) && next != c.status && (next == SigningPending || next == Failed)
    requires c.status == Draft ==> next == SigningPending
    requires c.jeonse && next == SigningPending ==> Vouched(c.rechecks, now)
    ensures Inv(Moved(c, next, Platform, now))
  {
    MovedKeepsChain(c, next, Platform, now);
    MovedKeepsGate(c, next, Platform, now);
  }

  lemma ClaimKeepsInv(c: Contract, now: int, answer: Answer)
    requires Inv(c)
    ensures Inv(Claim(c, now, answer).0)
    ensures Claim(c, now, answer).1 ==> Claim(c, now, answer).0.status == SigningPending
  {
    RecheckupKeepsInv(c, now, false, answer);
    if Claim(c, now, answer).1 {
      if c.jeonse {
        ClearedIsCovered(c, now, answer);
      }
      PlatformMoveKeepsInv(Recheckup(c, now, false, answer).0, SigningPending, now);
    }
  }

  lemma StartSigningKeepsInv(c: Contract, now: int, answer: Answer, session: Option<string>)
    requires Inv(c)
    ensures Inv(StartSigning(c, now, answer, session))
  {
    ClaimKeepsInv(c, now, answer);
    var (c', claimed) := Claim(c, now, answer);
    if claimed {
      PlatformMoveKeepsInv(c', Failed, now);
      assert FailSession(c', now) == Moved(c', Failed, Platform, now);
    }
  }

  /** A recheck covers every instant up to its expiry. */
  lemma PassesCoverUntilExpiry(r: Recheck, at: int)
    requires RecheckOk(r)
    ensures Covers(r, at) <==> r.status == Passed && at <= r.expiresAt.value
  {
  }

  /** The provider call lies between the start of the recheck and the claim. A deposit lease is still covered when it is
      claimed exactly when some recheck that passed has not expired by then. */
  lemma LateClaimKeepsInvIff(c: Contract, now: int, at: int, answer: Answer)
    requires Inv(c) && ClaimAt(c, now, at, answer).1
    ensures var rechecks := Recheckup(c, now, false, answer).0.rechecks;
            Inv(ClaimAt(c, now, at, answer).0) <==>
            !c.jeonse || exists k :: 0 <= k < |rechecks| && rechecks[k].status == Passed && at <= rechecks[k].expiresAt.value
  {
    var c' := Recheckup(c, now, false, answer).0;
    RecheckupKeepsInv(c, now, false, answer);
    forall k | 0 <= k < |c'.rechecks|
      ensures Covers(c'.rechecks[k], at) <==> c'.rechecks[k].status == Passed && at <= c'.rechecks[k].expiresAt.value
    {
      assert RecheckOk(c'.rechecks[k]);
      PassesCoverUntilExpiry(c'.rechecks[k], at);
    }
    assert Vouched(c'.rechecks, at) <==> exists k :: 0 <= k < |c'.rechecks| && Covers(c'.rechecks[k], at);
    if !c.jeonse || Vouched(c'.rechecks, at) {
      PlatformMoveKeepsInv(c', SigningPending, at);
    } else {
      var h' := Moved(c', SigningPending, Platform, at).history;
      assert Opened(h'[|c'.history|]);
    }
  }

  /** A recheck that rests on a registry extract just a day old passes and expires at once, and the claim that follows a
      moment later is no longer covered. */
  lemma ClaimAfterExpiry(provider: Provider) returns (answer: Answer)
    ensures var (c, claimed) := ClaimAt(Created(true, true, provider, 0), 0, 1, answer);
            claimed && c.status == SigningPending && !Inv(c)
  {
    answer := Got(Evidence(true, true, false, true, -REGISTRY_MAX_AGE, 0, 0));
    var c := Created(true, true, provider, 0);
    assert Recheckup(c, 0, false, answer).0.rechecks == [Completed(0, answer)];
    LateClaimKeepsInvIff(c, 0, 1, answer);
  }

  /** Storing the session late does no harm once the contract was claimed. */
  lemma LateSessionKeepsInvIff(c: Contract, session: string)
    requires Inv(c)
    ensures Inv(OpenSession(c, session)) <==> c.status != Draft
  {
  }

  /** Writing the failure late keeps the invariant exactly when the contract is still being opened: anything else that
      happened since the claim leaves a break in the history. */
  lemma LateFailureKeepsInvIff(c: Contract, now: int)
    requires Inv(c)
    ensures Inv(FailSession(c, now)) <==> c.status == SigningPending
  {
    var h, h' := c.history, FailSession(c, now).history;
    if c.status == SigningPending {
      PlatformMoveKeepsInv(c, Failed, now);
      assert FailSession(c, now) == Moved(c, Failed, Platform, now);
    } else {
      assert h'[|h| - 1] == h[|h| - 1];
      assert !Link(h', |h|);
    }
  }

  lemma {:induction false} PartiesStay(parties: map<Role, PartyStatus>, moves: seq<Move>)
    ensures UpdatedParties(parties, moves).Keys == parties.Keys
    decreases |moves|
  {
    if moves != [] {
      PartiesStay(parties, moves[..|moves| - 1]);
    }
  }

  /** Lower-casing a hash leaves digits and small letters, each digit or letter as it was but for its case. */
  lemma LowerKeepsHex(h: string)
    requires Hex64(h)
    ensures Hex64(Lower(h)) && forall i :: 0 <= i < |h| ==> SameDigit(h[i], Lower(h)[i])
  {
    forall i | 0 <= i < |h|
      ensures HexDigit(Lower(h)[i]) && SameDigit(h[i], Lower(h)[i])
    {
      assert HexDigit(h[i]);
    }
  }

  predicate SameDigit(ch: char, small: char) {
    ('0' <= small <= '9' || 'a' <= small <= 'f') && (small == ch || small as int - 'a' as int == ch as int - 'A' as int)
  }

  lemma ProcessKeepsInv(c: Contract, provider: Provider, p: Payload, now: int, fate: Fate)
    requires Inv(c)
    ensures Inv(Process(c, provider, p, now, fate).0)
  {
    if Process(c, provider, p, now, fate).1 == Processed {
      MovedKeepsChain(c, p.status, Webhook, now);
      MovedKeepsGate(c, p.status, Webhook, now);
      PartiesStay(c.parties, PartyMoves(p));
      if p.status == Signed {
        LowerKeepsHex(p.hash.value);
      }
    }
  }

  /** The contract is read in one step and updated in a later one, without looking again. The late update keeps the
      invariant exactly when the contract has the status that was read. */
  lemma LateReportKeepsInvIff(c: Contract, seen: Contract, provider: Provider, p: Payload, now: int)
    requires Inv(c) && Inv(seen) && Acceptable(seen, provider, p)
    ensures Inv(AcceptedLate(c, seen.status, p, now)) <==> c.status == seen.status
  {
    var c' := AcceptedLate(c, seen.status, p, now);
    if c.status == seen.status {
      MovedKeepsChain(c, p.status, Webhook, now);
      MovedKeepsGate(c, p.status, Webhook, now);
      PartiesStay(c.parties, PartyMoves(p));
      if p.status == Signed {
        LowerKeepsHex(p.hash.value);
      }
      assert c' == Accepted(c, p, now);
    } else {
      var n := |c.history|;
      assert c'.history[n - 1] == c.history[n - 1] && c'.history[n].previous == Some(seen.status);
      assert !Link(c'.history, n);
    }
  }

  lemma NextKeepsInv(w: World, s: Step)
    requires Inv(w.contract)
    ensures Inv(Next(w, s).contract)
  {
    match s
    case RecheckStep(now, force, answer) => RecheckupKeepsInv(w.contract, now, force, answer);
    case SignStep(now, answer, session) => StartSigningKeepsInv(w.contract, now, answer, session);
    case WebhookStep(provider, id, digest, p, now, fate) => ProcessKeepsInv(w.contract, provider, p, now, fate);
  }

  lemma {:induction false} RunsKeepInv(w: World, steps: seq<Step>)
    requires Inv(w.contract)
    ensures Inv(Run(w, steps).contract)
    decreases |steps|
  {
    if steps != [] {
      NextKeepsInv(w, steps[0]);
      RunsKeepInv(Next(w, steps[0]), steps[1..]);
    }
  }

  /** Whatever the provider sends, a deposit-lease contract is out of DRAFT only if the platform opened signing at an
      instant a passed recheck covered; the history is one chain from DRAFT to the status; a signed contract has its
      document and hash. */
  lemma SigningIsGated(jeonse: bool, domestic: bool, provider: Provider, at: int, steps: seq<Step>)
    ensures var c := Run(World(Created(jeonse, domestic, provider, at), map[]), steps).contract;
            && Chain(c) && Gated(c)
            && (c.jeonse && c.status != Draft ==> |c.history| > 1 && Vouched(c.rechecks, c.history[1].at))
            && (c.session.Some? ==> c.status != Draft)
            && (c.status == Signed ==> c.document && c.hash.Some? && Hex64(c.hash.value))
  {
    var start := World(Created(jeonse, domestic, provider, at), map[]);
    RunsKeepInv(start, steps);
    var c := Run(start, steps).contract;
    if c.status != Draft {
      assert |c.history| > 1 && Link(c.history, 1);
      RunsKeepLease(start, steps);
    }
  }

  lemma {:induction false} RunsKeepLease(w: World, steps: seq<Step>)
    ensures Run(w, steps).contract.jeonse == w.contract.jeonse
    decreases |steps|
  {
    if steps != [] {
      RunsKeepLease(Next(w, steps[0]), steps[1..]);
    }
  }

  /** The registry extract and the guarantee are in order, none dated more than five minutes ahead, the extract at most a
      day old and both checks at most half an hour. */
  ghost predicate Passes(e: Evidence, now: int) {
    && e.registryClear && e.ownerMatched && !e.criticalRisk && e.guaranteeEligible
    && now - 86_400_000 <= e.issuedAt <= now + 300_000
    && now - 1_800_000 <= e.registryCheckedAt <= now + 300_000
    && now - 1_800_000 <= e.guaranteeCheckedAt <= now + 300_000
  }

  /** The latest attempt passed and has not expired. */
  ghost predicate StillValid(c: Contract, now: int) {
    c.rechecks != [] && c.rechecks[|c.rechecks| - 1].status == Passed
    && c.rechecks[|c.rechecks| - 1].expiresAt.Some? && now < c.rechecks[|c.rechecks| - 1].expiresAt.value
  }

  /** The latest attempt is running and not two minutes old. */
  ghost predicate StillRunning(c: Contract, now: int) {
    c.rechecks != [] && c.rechecks[|c.rechecks| - 1].status == Running
    && now < c.rechecks[|c.rechecks| - 1].startedAt + 120_000
  }

  /** A recheck is not needed, not supported or out of place; a valid pass is used again unless a new attempt is forced; a
      running one is waited for. Otherwise one attempt is made, and it passes exactly on evidence that passes, for half an
      hour or until the extract is a day old. */
  lemma RecheckAnswers(c: Contract, now: int, force: bool, answer: Answer)
    ensures var (c', ruling) := Recheckup(c, now, force, answer);
            if !c.jeonse then ruling == NotRequired && c' == c
            else if !c.domestic then ruling == Unsupported && c' == c
            else if c.status != Draft && c.status != Failed then ruling == WrongStatus && c' == c
            else if !force && StillValid(c, now) then ruling == Checked(c.rechecks[|c.rechecks| - 1]) && c' == c
            else if StillRunning(c, now) then ruling == Busy && c' == c
            else
              && c' == c.(rechecks := c'.rechecks) && |c'.rechecks| == |c.rechecks| + 1 && c.rechecks <= c'.rechecks
              && ruling == Checked(c'.rechecks[|c.rechecks|]) && AttemptAnswers(c'.rechecks[|c.rechecks|], now, answer)
  {
  }

  ghost predicate AttemptAnswers(r: Recheck, now: int, answer: Answer) {
    match answer
    case Crashed => r == Recheck(Running, now, None, None)
    case Unreachable => r == Recheck(Unavailable, now, None, None)
    case Got(e) =>
      if Passes(e, now)
      then r == Recheck(Passed, now, Some(e), Some(if now + 1_800_000 < e.issuedAt + 86_400_000 then now + 1_800_000
                                                   else e.issuedAt + 86_400_000))
      else r == Recheck(Blocked, now, Some(e), None)
  }

  /** A contract is claimed for signing exactly when it is a draft or failed and needs no recheck, or the latest attempt is
      an unexpired pass, or no attempt is under way and a fresh one passes; an older pass behind a newer blocked, failed or
      stale attempt does not count. */
  lemma SigningProceedsIff(c: Contract, now: int, at: int, answer: Answer)
    ensures ClaimAt(c, now, at, answer).1 <==>
            && (c.status == Draft || c.status == Failed)
            && (|| !c.jeonse
                || (c.domestic && (StillValid(c, now)
                                   || (!StillRunning(c, now) && answer.Got? && Passes(answer.evidence, now)))))
    ensures var (c', claimed) := ClaimAt(c, now, at, answer);
            if claimed then c'.status == SigningPending && c'.history == c.history + [Entry(Some(c.status), SigningPending, Platform, at)]
            else c'.status == c.status && c'.history == c.history
  {
    RecheckAnswers(c, now, false, answer);
  }

  /** What follows the claim: the session the provider opened is stored and the contract waits for it, or the attempt is
      recorded as failed. */
  lemma SigningAnswers(c: Contract, now: int, answer: Answer, session: Option<string>)
    ensures var (c1, claimed) := Claim(c, now, answer);
            var c' := StartSigning(c, now, answer, session);
            if !claimed then c' == c1
            else if session.Some? then c' == c1.(session := session)
            else c' == c1.(status := Failed, history := c1.history + [Entry(Some(SigningPending), Failed, Platform, now)])
  {
  }

  /** The gate guards the platform's button only. A webhook that names the stored session and provider takes a failed
      contract to any other status, with no recheck, except to SIGNED without its document. */
  lemma WebhookReopensIff(c: Contract, provider: Provider, p: Payload, now: int)
    requires Inv(c) && c.status == Failed
    ensures Process(c, provider, p, now, Completes).1 == Processed <==>
            c.session == Some(p.session) && c.provider == provider && p.status != Failed && !Undocumented(p)
    ensures Process(c, provider, p, now, Completes).0.rechecks == c.rechecks
  {
  }

  const YEAR := 365 * DAY

  /** A recheck that passes at the given instant. */
  function CleanAt(now: int): Answer {
    Got(Evidence(true, true, false, true, now, now, now))
  }

  /** A recheck passes and signing opens at once. */
  lemma SigningOpens(provider: Provider)
    ensures var c := StartSigning(Created(true, true, provider, 0), 0, CleanAt(0), Some("s"));
            && c.status == SigningPending && c.session == Some("s") && c.provider == provider && c.jeonse && c.domestic
            && |c.rechecks| == 1 && c.rechecks[0].status == Passed && c.rechecks[0].expiresAt == Some(RECHECK_VALID)
            && Next(World(Created(true, true, provider, 0), map[]), SignStep(0, CleanAt(0), Some("s"))) == World(c, map[])
  {
    var c := StartSigning(Created(true, true, provider, 0), 0, CleanAt(0), Some("s"));
    assert c.rechecks == [Completed(0, CleanAt(0))];
  }

  /** The provider reports a failure an hour later. */
  lemma OpenedAndFailed(provider: Provider, failure: Payload) returns (steps: seq<Step>, c: Contract)
    requires failure == Payload("s", Failed, None, false, None)
    ensures |steps| == 2 && c.status == Failed && c.session == Some("s") && c.provider == provider && c.jeonse && c.domestic
    ensures |c.rechecks| == 1 && c.rechecks[0].status == Passed && c.rechecks[0].expiresAt == Some(RECHECK_VALID)
    ensures Run(World(Created(true, true, provider, 0), map[]), steps)
            == World(c, map[(provider, "1") := Event("d", Processed)])
  {
    var start := World(Created(true, true, provider, 0), map[]);
    SigningOpens(provider);
    var fail := WebhookStep(provider, "1", "d", failure, HOUR, Completes);
    steps := [SignStep(0, CleanAt(0), Some("s")), fail];
    var w1 := Next(start, steps[0]);
    c := Accepted(w1.contract, failure, HOUR);
    assert steps == [steps[0]] + [fail] && [steps[0]][1..] == [];
    OneStepMore(start, [steps[0]], fail);
    assert Run(start, [steps[0]]) == Run(w1, []) == w1;
    assert Next(w1, fail) == World(c, map[(provider, "1") := Event("d", Processed)]);
  }

  lemma {:induction false} OneStepMore(w: World, steps: seq<Step>, last: Step)
    ensures Run(w, steps + [last]) == Next(Run(w, steps), last)
    decreases |steps|
  {
    if steps == [] {
      assert steps + [last] == [last] && [last][1..] == [];
    } else {
      assert (steps + [last])[1..] == steps[1..] + [last];
      OneStepMore(Next(w, steps[0]), steps[1..], last);
    }
  }

  /** A deposit lease whose signing failed is signed a year later on a recheck that expired after half an hour. */
  lemma SignedOnExpiredRecheck(provider: Provider) returns (steps: seq<Step>)
    ensures var c := Run(World(Created(true, true, provider, 0), map[]), steps).contract;
            && c.status == Signed && |c.history| > 0 && c.history[|c.history| - 1].at == YEAR
            && |c.rechecks| == 1 && c.rechecks[0].expiresAt == Some(RECHECK_VALID) && !Covers(c.rechecks[0], YEAR)
  {
    var begin, c := OpenedAndFailed(provider, Payload("s", Failed, None, false, None));
    var signature := SignatureOf("s");
    var last := WebhookStep(provider, "2", "e", signature, YEAR, Completes);
    steps := begin + [last];
    OneStepMore(World(Created(true, true, provider, 0), map[]), begin, last);
    assert "1"[0] != "2"[0];
    assert Process(c, provider, signature, YEAR, Completes) == (Accepted(c, signature, YEAR), Processed);
  }

  lemma SignedBetweenHalves(c: Contract, answer: Answer, p: Payload)
    requires Inv(c) && c.status == Failed && c.session == Some(p.session) && p.status == Signed && !Undocumented(p)
    requires c.jeonse && c.domestic && |c.rechecks| == 1 && answer == CleanAt(2 * HOUR)
    requires c.rechecks[0].status == Passed && c.rechecks[0].expiresAt == Some(RECHECK_VALID)
    ensures var (c1, claimed) := Claim(c, 2 * HOUR, answer);
            var (c2, verdict) := Process(c1, c.provider, p, 3 * HOUR, Completes);
            claimed && verdict == Processed && c2.status == Signed && Inv(c2)
  {
    ClaimKeepsInv(c, 2 * HOUR, answer);
    ClaimsFailed(c, answer);
    ProcessKeepsInv(Claim(c, 2 * HOUR, answer).0, c.provider, p, 3 * HOUR, Completes);
  }

  /** A run after which the two halves of a new signing attempt are torn apart: the attempt is claimed, a webhook of the
      earlier session signs the contract, and the provider's refusal of the new session then overwrites SIGNED. */
  lemma LateFailureUndoesSignature(provider: Provider) returns (steps: seq<Step>, answer: Answer, p: Payload)
    ensures var c := Run(World(Created(true, true, provider, 0), map[]), steps).contract;
            var (c1, claimed) := Claim(c, 2 * HOUR, answer);
            var (c2, verdict) := Process(c1, provider, p, 3 * HOUR, Completes);
            && claimed && verdict == Processed && c2.status == Signed
            && FailSession(c2, 4 * HOUR).status == Failed && !Inv(FailSession(c2, 4 * HOUR))
  {
    var c;
    steps, c := OpenedAndFailed(provider, Payload("s", Failed, None, false, None));
    answer, p := CleanAt(2 * HOUR), SignatureOf("s");
    RunsKeepInv(World(Created(true, true, provider, 0), map[]), steps);
    SignedBetweenHalves(c, answer, p);
    LateFailureKeepsInvIff(Process(Claim(c, 2 * HOUR, answer).0, provider, p, 3 * HOUR, Completes).0, 4 * HOUR);
  }

  /** A run after which a signature is undone: the refusal of a party was read while the contract was open, a signature is
      processed meanwhile, and the refusal is then written over SIGNED. */
  lemma LateReportUndoesSignature(provider: Provider) returns (before: seq<Step>, signature: Step, refusal: Payload)
    ensures var start := World(Created(true, true, provider, 0), map[]);
            var seen, c := Run(start, before).contract, Run(start, before + [signature]).contract;
            && Acceptable(seen, provider, refusal) && c.status == Signed
            && AcceptedLate(c, seen.status, refusal, 2 * HOUR).status == Declined
            && !Inv(AcceptedLate(c, seen.status, refusal, 2 * HOUR))
  {
    var seen;
    before, signature, seen := SignedOnceOpen(provider);
    refusal := Payload("s", Declined, None, false, None);
    var start := World(Created(true, true, provider, 0), map[]);
    RunsKeepInv(start, before);
    RunsKeepInv(start, before + [signature]);
    LateReportKeepsInvIff(Accepted(seen, signature.payload, HOUR), seen, provider, refusal, 2 * HOUR);
  }

  lemma SignedOnceOpen(provider: Provider) returns (before: seq<Step>, signature: Step, seen: Contract)
    ensures signature.WebhookStep? && signature.payload.status == Signed
    ensures var start := World(Created(true, true, provider, 0), map[]);
            && Run(start, before).contract == seen
            && Run(start, before + [signature]).contract == Accepted(seen, signature.payload, HOUR)
    ensures seen.session == Some("s") && seen.provider == provider && seen.status == SigningPending
  {
    var start := World(Created(true, true, provider, 0), map[]);
    before := [SignStep(0, CleanAt(0), Some("s"))];
    signature := WebhookStep(provider, "1", "d", SignatureOf("s"), HOUR, Completes);
    SigningOpens(provider);
    OneStepRun(start, before[0]);
    OneStepMore(start, before, signature);
    seen := Run(start, before).contract;
    SignsWhenOpen(seen, signature);
  }

  lemma OneStepRun(w: World, s: Step)
    ensures Run(w, [s]) == Next(w, s)
  {
    assert [s][1..] == [];
    assert Run(w, [s]) == Run(Next(w, s), []);
  }

  lemma SignsWhenOpen(c: Contract, s: Step)
    requires c.status == SigningPending && s.WebhookStep? && s.fate == Completes && Acceptable(c, s.provider, s.payload)
    ensures Next(World(c, map[]), s).contract == Accepted(c, s.payload, s.now)
  {
  }

  lemma ClaimsFailed(c: Contract, answer: Answer)
    requires c.status == Failed && c.jeonse && c.domestic && |c.rechecks| == 1 && answer == CleanAt(2 * HOUR)
    requires c.rechecks[0].status == Passed && c.rechecks[0].expiresAt == Some(RECHECK_VALID)
    ensures var (c1, claimed) := Claim(c, 2 * HOUR, answer);
            claimed && c1.status == SigningPending && c1.session == c.session && c1.provider == c.provider
  {
    assert !Reusable(c, 2 * HOUR) && !Underway(c, 2 * HOUR);
  }

  function SignatureOf(session: string): (p: Payload)
    ensures p.session == session && p.status == Signed && !Undocumented(p)
  {
    Payload(session, Signed, None, true, Some(seq(64, _ => 'a')))
  }

  // ---------- what a webhook leads to ----------

  /** The move decides about a party that has not decided yet. */
  ghost predicate Decides(m: Move, role: Role) {
    m.role == role && (m.status == HasSigned || m.status == HasDeclined)
  }

  ghost predicate FirstDecision(moves: seq<Move>, role: Role, i: int) {
    0 <= i < |moves| && Decides(moves[i], role) && forall j :: 0 <= j < i ==> !Decides(moves[j], role)
  }

  /** How a party ends: as it had decided, as the first reported decision says, or viewed once that is reported. */
  ghost predicate PartyEnds(before: PartyStatus, moves: seq<Move>, role: Role, after: PartyStatus) {
    if before == HasSigned || before == HasDeclined then after == before
    else if exists i :: FirstDecision(moves, role, i) then exists i :: FirstDecision(moves, role, i) && after == moves[i].status
    else after == if before == Waiting && Move(role, Viewed) in moves then Viewed else before
  }

  lemma {:induction false} PartiesEnd(parties: map<Role, PartyStatus>, moves: seq<Move>, role: Role)
    requires role in parties
    ensures role in UpdatedParties(parties, moves) && PartyEnds(parties[role], moves, role, UpdatedParties(parties, moves)[role])
    decreases |moves|
  {
    if moves != [] {
      var n := |moves| - 1;
      PartiesEnd(parties, moves[..n], role);
      PartiesStay(parties, moves[..n]);
      OneMoveMore(parties[role], moves, role, UpdatedParties(parties, moves[..n])[role]);
    }
  }

  lemma OneMoveMore(before: PartyStatus, moves: seq<Move>, role: Role, middle: PartyStatus)
    requires moves != [] && PartyEnds(before, moves[..|moves| - 1], role, middle)
    ensures var m := moves[|moves| - 1];
            PartyEnds(before, moves, role, if m.role == role then MovedParty(middle, m.status) else middle)
  {
    var n := |moves| - 1;
    var m := moves[n];
    assert moves == moves[..n] + [m];
    if before == HasSigned || before == HasDeclined {
    } else if exists i :: FirstDecision(moves[..n], role, i) {
      var i :| FirstDecision(moves[..n], role, i) && middle == moves[..n][i].status;
      assert FirstDecision(moves, role, i) && moves[i] == moves[..n][i];
    } else {
      NoneDecided(moves[..n], role);
      if Decides(m, role) {
        assert FirstDecision(moves, role, n);
      } else {
        forall i | 0 <= i < |moves|
          ensures !FirstDecision(moves, role, i)
        {
          assert i < n ==> moves[i] == moves[..n][i];
        }
      }
    }
  }

  lemma {:induction false} NoneDecided(moves: seq<Move>, role: Role)
    requires forall i :: !FirstDecision(moves, role, i)
    ensures forall j :: 0 <= j < |moves| ==> !Decides(moves[j], role)
    decreases |moves|
  {
    if moves != [] {
      var n := |moves| - 1;
      forall i
        ensures !FirstDecision(moves[..n], role, i)
      {
        assert !FirstDecision(moves, role, i);
      }
      NoneDecided(moves[..n], role);
      assert !FirstDecision(moves, role, n);
    }
  }

  /** A party whose status changed has a status that was reported for its role. */
  lemma ChangesAreReported(parties: map<Role, PartyStatus>, moves: seq<Move>, role: Role)
    requires role in parties
    ensures role in UpdatedParties(parties, moves)
    ensures UpdatedParties(parties, moves)[role] != parties[role] ==> Move(role, UpdatedParties(parties, moves)[role]) in moves
  {
    PartiesEnd(parties, moves, role);
  }

  /** The moves a payload reports: its list, or two signatures when it reports SIGNED without one. */
  ghost predicate ReportsMove(p: Payload, m: Move) {
    if p.parties.Some? then m in p.parties.value
    else p.status == Signed && m.status == HasSigned
  }

  ghost predicate Hexadecimal(h: string) {
    |h| == 64 && forall i :: 0 <= i < |h| ==> ('0' <= h[i] <= '9' || 'a' <= h[i] <= 'f' || 'A' <= h[i] <= 'F')
  }

  /** The webhook names the session that is stored, and the contract is open or failed and not yet where it is to go. */
  ghost predicate Concerns(c: Contract, provider: Provider, p: Payload) {
    && c.session == Some(p.session) && c.provider == provider
    && (c.status == SigningPending || c.status == PartiallySigned || c.status == Failed)
    && p.status != c.status && (p.status == SigningPending ==> c.status == Failed)
  }

  /** A webhook moves the contract exactly when it concerns it and, for SIGNED, brings the document and its hash; the
      contract then has the reported status, one more entry, the document, the hash in small letters, and the parties as
      reported. Anything else leaves the contract as it was. */
  lemma WebhookAnswers(c: Contract, provider: Provider, p: Payload, now: int)
    requires Inv(c)
    ensures var (c', verdict) := Process(c, provider, p, now, Completes);
            && verdict == (if !Concerns(c, provider, p) then Ignored
                           else if p.status == Signed && !(p.document && p.hash.Some? && Hexadecimal(p.hash.value)) then Broken
                           else Processed)
            && (verdict != Processed ==> c' == c)
            && (verdict == Processed ==>
                  && c' == c.(status := p.status, document := c.document || p.document, hash := c'.hash, parties := c'.parties,
                              history := c.history + [Entry(Some(c.status), p.status, Webhook, now)])
                  && (p.hash.None? ==> c'.hash == c.hash)
                  && (p.hash.Some? ==> c'.hash == Some(Lower(p.hash.value)))
                  && forall role :: role in c.parties ==>
                       role in c'.parties && PartyEndsBy(c.parties[role], p, role, c'.parties[role]))
  {
    if Process(c, provider, p, now, Completes).1 == Processed {
      forall role | role in c.parties
        ensures role in UpdatedParties(c.parties, PartyMoves(p))
        ensures PartyEndsBy(c.parties[role], p, role, UpdatedParties(c.parties, PartyMoves(p))[role])
      {
        PartiesEndByPayload(c.parties, p, role);
      }
    }
  }

  /** By the payload's list if it has one; otherwise SIGNED signs for those who have not decided, and nothing else counts. */
  ghost predicate PartyEndsBy(before: PartyStatus, p: Payload, role: Role, after: PartyStatus) {
    match p.parties
    case Some(moves) => PartyEnds(before, moves, role, after)
    case None => after == if p.status == Signed && before != HasDeclined then HasSigned else before
  }

  lemma PartiesEndByPayload(parties: map<Role, PartyStatus>, p: Payload, role: Role)
    requires role in parties
    ensures role in UpdatedParties(parties, PartyMoves(p))
    ensures PartyEndsBy(parties[role], p, role, UpdatedParties(parties, PartyMoves(p))[role])
  {
    PartiesEnd(parties, PartyMoves(p), role);
    if p.parties.None? && p.status == Signed {
      assert role == Member ==> FirstDecision(PartyMoves(p), role, 0);
      assert role == Registrant ==> FirstDecision(PartyMoves(p), role, 1);
    }
  }

  /** A transmission that is new, or was marked as failed and comes with its own body again, is processed and recorded with
      what became of it; any other leaves everything as it was. */
  lemma TransmissionAnswers(w: World, provider: Provider, id: string, digest: string, p: Payload, now: int, fate: Fate)
    ensures var w' := Handle(w, provider, id, digest, p, now, fate);
            var (c', verdict) := Process(w.contract, provider, p, now, fate);
            if (provider, id) !in w.events || w.events[(provider, id)] == Event(digest, Broken)
            then w' == World(c', w.events[(provider, id) := Event(digest, verdict)]) else w' == w
    ensures fate != Completes ==> Process(w.contract, provider, p, now, fate).0 == w.contract
    ensures fate == Stops ==> Process(w.contract, provider, p, now, fate).1 == Received
    ensures fate == Loses ==> Process(w.contract, provider, p, now, fate).1
                              == if Process(w.contract, provider, p, now, Completes).1 == Ignored then Ignored else Broken
  {
  }

  lemma MovesOfPayload(p: Payload, m: Move)
    ensures m in PartyMoves(p) <==> ReportsMove(p, m)
  {
    var both := [Move(Member, HasSigned), Move(Registrant, HasSigned)];
    assert both[0] in both && both[1] in both;
    assert m.role == Member || m.role == Registrant;
  }

  ghost predicate ReportedAt(start: World, steps: seq<Step>, k: nat, m: Move) {
    && k < |steps| && steps[k].WebhookStep? && steps[k].fate == Completes && ReportsMove(steps[k].payload, m)
    && var c := Run(start, steps[..k]).contract;
       Concerns(c, steps[k].provider, steps[k].payload)
  }

  /** Over every run a party has signed, declined or viewed only if a webhook that concerned the contract said so. */
  lemma {:induction false} PartiesDidAsReported(jeonse: bool, domestic: bool, provider: Provider, at: int, steps: seq<Step>, role: Role)
    ensures var start := World(Created(jeonse, domestic, provider, at), map[]);
            var parties := Run(start, steps).contract.parties;
            && role in parties
            && (parties[role] != Waiting ==> exists k: nat :: ReportedAt(start, steps, k, Move(role, parties[role])))
    decreases |steps|
  {
    var start := World(Created(jeonse, domestic, provider, at), map[]);
    if steps != [] {
      var n := |steps| - 1;
      var before, s := steps[..n], steps[n];
      var w, w' := Run(start, before), Run(start, steps);
      assert before + [s] == steps;
      OneStepMore(start, before, s);
      PartiesDidAsReported(jeonse, domestic, provider, at, before, role);
      RunsKeepInv(start, before);
      if role in w'.contract.parties && w'.contract.parties[role] == w.contract.parties[role] {
        if w.contract.parties[role] != Waiting {
          var k: nat :| ReportedAt(start, before, k, Move(role, w.contract.parties[role]));
          assert steps[..k] == before[..k];
          assert ReportedAt(start, steps, k, Move(role, w.contract.parties[role]));
        }
      } else {
        PartyStep(w, s, role);
        assert ReportedAt(start, steps, n, Move(role, w'.contract.parties[role]));
      }
    }
  }

  lemma PartyStep(w: World, s: Step, role: Role)
    requires Inv(w.contract) && role in w.contract.parties
    ensures role in Next(w, s).contract.parties
    ensures Next(w, s).contract.parties[role] != w.contract.parties[role] ==>
              s.WebhookStep? && s.fate == Completes && Concerns(w.contract, s.provider, s.payload)
              && ReportsMove(s.payload, Move(role, Next(w, s).contract.parties[role]))
  {
    if s.WebhookStep? {
      TransmissionAnswers(w, s.provider, s.id, s.digest, s.payload, s.now, s.fate);
      WebhookAnswers(w.contract, s.provider, s.payload, s.now);
      ChangesAreReported(w.contract.parties, PartyMoves(s.payload), role);
      MovesOfPayload(s.payload, Move(role, UpdatedParties(w.contract.parties, PartyMoves(s.payload))[role]));
    }
  }

  // ---------- nothing goes backwards ----------

  function Progress(s: PartyStatus): nat {
    match s
    case Waiting => 0
    case Viewed => 1
    case _ => 2
  }

  ghost predicate PartiesAdvance(a: map<Role, PartyStatus>, b: map<Role, PartyStatus>) {
    a.Keys <= b.Keys && forall role :: role in a ==> Progress(a[role]) < Progress(b[role]) || a[role] == b[role]
  }

  lemma {:induction false} MovesAdvanceParties(parties: map<Role, PartyStatus>, moves: seq<Move>)
    ensures PartiesAdvance(parties, UpdatedParties(parties, moves))
    decreases |moves|
  {
    if moves != [] {
      MovesAdvanceParties(parties, moves[..|moves| - 1]);
    }
  }

  ghost predicate Advances(c: Contract, c': Contract) {
    && c.history <= c'.history && c.rechecks <= c'.rechecks
    && PartiesAdvance(c.parties, c'.parties)
    && (Final(c.status) ==> c' == c)
  }

  lemma StartSigningAdvances(c: Contract, now: int, answer: Answer, session: Option<string>)
    ensures Advances(c, StartSigning(c, now, answer, session))
  {
  }

  lemma AcceptedAdvances(c: Contract, p: Payload, now: int)
    requires !Final(c.status)
    ensures Advances(c, Accepted(c, p, now))
  {
    MovesAdvanceParties(c.parties, PartyMoves(p));
    assert Accepted(c, p, now).parties == UpdatedParties(c.parties, PartyMoves(p));
  }

  lemma ProcessAdvances(c: Contract, provider: Provider, p: Payload, now: int, fate: Fate)
    ensures Advances(c, Process(c, provider, p, now, fate).0)
  {
    var (c', verdict) := Process(c, provider, p, now, fate);
    if verdict == Processed {
      AcceptedAdvances(c, p, now);
    } else {
      assert c' == c;
    }
  }

  lemma NextAdvances(w: World, s: Step)
    ensures Advances(w.contract, Next(w, s).contract)
  {
    match s
    case RecheckStep(now, force, answer) =>
    case SignStep(now, answer, session) => StartSigningAdvances(w.contract, now, answer, session);
    case WebhookStep(provider, id, digest, p, now, fate) => ProcessAdvances(w.contract, provider, p, now, fate);
  }

  /** A transmission already processed or ignored is kept as it is; one under another digest never replaces it. */
  lemma NextKeepsEvents(w: World, s: Step, key: (Provider, string))
    requires key in w.events
    ensures key in Next(w, s).events && Next(w, s).events[key].digest == w.events[key].digest
    ensures w.events[key].verdict != Broken ==> Next(w, s).events[key] == w.events[key]
  {
  }

  /** History and rechecks are append-only, parties only move up, and a finished contract never changes again. */
  lemma {:induction false} RunsOnlyAdvance(w: World, steps: seq<Step>)
    ensures Advances(w.contract, Run(w, steps).contract)
    decreases |steps|
  {
    if steps != [] {
      NextAdvances(w, steps[0]);
      RunsOnlyAdvance(Next(w, steps[0]), steps[1..]);
    }
  }

  /** Once a transmission has been processed or ignored, delivering it again at any later time changes nothing, whatever
      body it then carries. The same goes for one whose processing stopped half-way: it is never taken up again. */
  lemma {:induction false} DeliveredOnce(w: World, steps: seq<Step>, provider: Provider, id: string,
                                         digest: string, p: Payload, now: int, fate: Fate)
    requires (provider, id) in w.events && w.events[(provider, id)].verdict != Broken
    ensures var w' := Run(w, steps); Handle(w', provider, id, digest, p, now, fate) == w'
    decreases |steps|
  {
    if steps != [] {
      NextKeepsEvents(w, steps[0], (provider, id));
      DeliveredOnce(Next(w, steps[0]), steps[1..], provider, id, digest, p, now, fate);
    }
  }

  ghost predicate NeverTakenUp(w: World, provider: Provider, id: string) {
    forall steps, digest, p, now, fate :: Handle(Run(w, steps), provider, id, digest, p, now, fate) == Run(w, steps)
  }

  /** A transmission is settled for good, whatever is delivered under its id and whenever, exactly when it is not marked
      as failed; so one whose processing stopped half-way is settled without ever having been processed. */
  lemma SettledIff(w: World, provider: Provider, id: string)
    requires (provider, id) in w.events
    ensures NeverTakenUp(w, provider, id) <==> w.events[(provider, id)].verdict != Broken
  {
    if w.events[(provider, id)].verdict != Broken {
      forall steps, digest, p, now, fate
        ensures Handle(Run(w, steps), provider, id, digest, p, now, fate) == Run(w, steps)
      {
        DeliveredOnce(w, steps, provider, id, digest, p, now, fate);
      }
    } else {
      BrokenIsTakenUp(w, provider, id);
    }
  }

  lemma BrokenIsTakenUp(w: World, provider: Provider, id: string)
    requires (provider, id) in w.events && w.events[(provider, id)].verdict == Broken
    ensures Handle(Run(w, []), provider, id, w.events[(provider, id)].digest, SignatureOf(""), 0, Stops) != Run(w, [])
  {
    var digest := w.events[(provider, id)].digest;
    var w' := Handle(w, provider, id, digest, SignatureOf(""), 0, Stops);
    assert w'.events[(provider, id)] == Event(digest, Received);
  }

  /** A run in which the signature of an open contract is lost: its processing stops half-way, the provider delivers it
      again, and nothing happens. */
  lemma SignatureIsLost(provider: Provider) returns (steps: seq<Step>)
    ensures |steps| == 3 && steps[1].WebhookStep? && steps[2] == steps[1].(fate := Completes) && steps[1].payload.status == Signed
    ensures var w := Run(World(Created(true, true, provider, 0), map[]), steps);
            && w.contract.status == SigningPending && (provider, "1") in w.events
            && w.events[(provider, "1")].verdict == Received
  {
    var start := World(Created(true, true, provider, 0), map[]);
    var open := SignStep(0, CleanAt(0), Some("s"));
    var stopped := WebhookStep(provider, "1", "d", SignatureOf("s"), HOUR, Stops);
    var again := stopped.(fate := Completes);
    steps := [open, stopped, again];
    SigningOpens(provider);
    var w1 := Next(start, open);
    var w2 := World(w1.contract, map[(provider, "1") := Event("d", Received)]);
    assert Next(w1, stopped) == w2;
    assert Refused(w2, (provider, "1"), "d") && Next(w2, again) == w2;
    assert steps[1..] == [stopped, again] && steps[1..][1..] == [again] && [again][1..] == [];
    assert Run(w2, [again]) == Run(w2, []) == w2;
    assert Run(w1, steps[1..]) == w2;
  }

  /** A signed webhook without a party list leaves both parties signed exactly when neither had declined;
      one whose list is empty leaves them as they were. */
  lemma SignedPartiesIff(c: Contract, provider: Provider, p: Payload, now: int)
    requires Inv(c) && Process(c, provider, p, now, Completes).1 == Processed && p.status == Signed
    ensures var after := Process(c, provider, p, now, Completes).0.parties;
            && (p.parties.None? ==>
                  (after == map[Member := HasSigned, Registrant := HasSigned] <==>
                   c.parties[Member] != HasDeclined && c.parties[Registrant] != HasDeclined))
            && (p.parties == Some([]) ==> after == c.parties)
  {
    var both := [Move(Member, HasSigned), Move(Registrant, HasSigned)];
    assert both[..1] == [Move(Member, HasSigned)] && both[..1][..0] == [];
    assert UpdatedParties(c.parties, []) == c.parties;
    assert UpdatedParties(c.parties, both[..1]) == c.parties[Member := MovedParty(c.parties[Member], HasSigned)];
    var after := UpdatedParties(c.parties, both);
    assert after == c.parties[Member := MovedParty(c.parties[Member], HasSigned)]
                             [Registrant := MovedParty(c.parties[Registrant], HasSigned)];
    assert after.Keys == {Member, Registrant};
  }

  // ---------- the services ----------

  class ContractService {
    const jeonse: bool
    const domestic: bool
    const provider: Provider
    var status: Status
    var session: Option<string>
    var document: bool
    var hash: Option<string>
    var parties: map<Role, PartyStatus>
    var history: seq<Entry>
    var rechecks: seq<Recheck>
    var events: map<(Provider, string), Event>

    function View(): World
      reads this
    {
      World(Contract(jeonse, domestic, provider, status, session, document, hash, parties, history, rechecks), events)
    }

    constructor (jeonse: bool, domestic: bool, provider: Provider, now: int)
      ensures View() == World(Created(jeonse, domestic, provider, now), map[]) && Inv(View().contract)
    {
      this.jeonse, this.domestic, this.provider := jeonse, domestic, provider;
      status, session, document, hash := Draft, None, false, None;
      parties := map[Member := Waiting, Registrant := Waiting];
      history := [Entry(None, Draft, Platform, now)];
      rechecks := [];
      events := map[];
    }

    method Advance(next: Status, source: Source, now: int)
      modifies this`status, this`history
      ensures View() == old(View()).(contract := Moved(old(View()).contract, next, source, now))
    {
      history := history + [Entry(Some(status), next, source, now)];
      status := next;
    }

    /** One attempt: it is recorded as running, and updated when the provider has answered. */
    method Attempt(now: int, answer: Answer)
      modifies this`rechecks
      ensures rechecks == old(rechecks) + [Completed(now, answer)]
    {
      rechecks := rechecks + [Recheck(Running, now, None, None)];
      var last := |rechecks| - 1;
      match answer {
        case Crashed =>
        case Unreachable =>
          rechecks := rechecks[last := rechecks[last].(status := Unavailable)];
        case Got(e) =>
          var passed := Timely(e, now) && Clean(e);
          var expiresAt := if passed then Some(Min(now + RECHECK_VALID, e.issuedAt + REGISTRY_MAX_AGE)) else None;
          rechecks := rechecks[last := rechecks[last].(status := if passed then Passed else Blocked,
                                                       evidence := Some(e), expiresAt := expiresAt)];
      }
    }

    method RunRecheck(now: int, force: bool, answer: Answer) returns (ruling: Ruling)
      requires Inv(View().contract)
      modifies this`rechecks
      ensures View() == old(View()).(contract := Recheckup(old(View()).contract, now, force, answer).0)
      ensures ruling == Recheckup(old(View()).contract, now, force, answer).1
      ensures Inv(View().contract)
    {
      RecheckupKeepsInv(View().contract, now, force, answer);
      if !jeonse {
        return NotRequired;
      }
      if !domestic {
        return Unsupported;
      }
      if status != Draft && status != Failed {
        return WrongStatus;
      }
      if rechecks != [] {
        var last := rechecks[|rechecks| - 1];
        if !force && last.status == Passed && last.expiresAt.Some? && last.expiresAt.value > now {
          return Checked(last);
        }
        if last.status == Running && now - last.startedAt < RUNNING_TIMEOUT {
          return Busy;
        }
      }
      Attempt(now, answer);
      ruling := Checked(rechecks[|rechecks| - 1]);
    }

    method ClaimForSigning(now: int, at: int, answer: Answer) returns (claimed: bool)
      requires Inv(View().contract)
      modifies this
      ensures View() == old(View()).(contract := ClaimAt(old(View()).contract, now, at, answer).0)
      ensures claimed == ClaimAt(old(View()).contract, now, at, answer).1
    {
      if status != Draft && status != Failed {
        return false;
      }
      var ruling := RunRecheck(now, false, answer);
      if !Clears(ruling) {
        return false;
      }
      Advance(SigningPending, Platform, at);
      claimed := true;
    }

    method WriteFailure(now: int)
      modifies this`status, this`history
      ensures View() == old(View()).(contract := FailSession(old(View()).contract, now))
    {
      history := history + [Entry(Some(SigningPending), Failed, Platform, now)];
      status := Failed;
    }

    method Sign(now: int, answer: Answer, granted: Option<string>)
      requires Inv(View().contract)
      modifies this
      ensures View() == old(View()).(contract := StartSigning(old(View()).contract, now, answer, granted))
      ensures Inv(View().contract)
    {
      StartSigningKeepsInv(View().contract, now, answer, granted);
      var claimed := ClaimForSigning(now, now, answer);
      if !claimed {
        return;
      }
      if granted.Some? {
        session := granted;
      } else {
        WriteFailure(now);
      }
    }

    method UpdateParties(moves: seq<Move>)
      modifies this`parties
      ensures parties == UpdatedParties(old(parties), moves)
      ensures forall role :: role in old(parties) ==>
                               role in parties && PartyEnds(old(parties[role]), moves, role, parties[role])
    {
      for i := 0 to |moves|
        invariant parties == UpdatedParties(old(parties), moves[..i])
      {
        assert moves[..i + 1][..i] == moves[..i];
        var m := moves[i];
        if m.status == Waiting || m.role !in parties {
          continue;
        }
        var current := parties[m.role];
        if current == Waiting || (m.status != Viewed && current == Viewed) {
          parties := parties[m.role := m.status];
        }
      }
      assert moves[..|moves|] == moves;
      forall role | role in old(parties)
        ensures role in parties && PartyEnds(old(parties[role]), moves, role, parties[role])
      {
        PartiesEnd(old(parties), moves, role);
      }
    }

    method Accept(p: Payload, now: int)
      modifies this
      ensures View() == old(View()).(contract := Accepted(old(View()).contract, p, now))
    {
      Advance(p.status, Webhook, now);
      document := document || p.document;
      if p.hash.Some? {
        hash := Some(Lower(p.hash.value));
      }
      UpdateParties(PartyMoves(p));
    }

    method Record(key: (Provider, string), digest: string, verdict: Verdict)
      modifies this`events
      ensures View() == old(View()).(events := old(View()).events[key := Event(digest, verdict)])
    {
      events := events[key := Event(digest, verdict)];
    }

    method ProcessEvent(sender: Provider, id: string, digest: string, p: Payload, now: int, fate: Fate)
      modifies this
      ensures var (c, verdict) := Process(old(View()).contract, sender, p, now, fate);
              View() == World(c, old(View()).events[(sender, id) := Event(digest, verdict)])
    {
      var key := (sender, id);
      Record(key, digest, Received);
      if fate == Stops {
        return;
      }
      var verdict := ApplyPayload(sender, p, now, fate == Loses);
      Record(key, digest, verdict);
    }

    method ApplyPayload(sender: Provider, p: Payload, now: int, lost: bool) returns (verdict: Verdict)
      modifies this
      ensures (View().contract, verdict) == Process(old(View()).contract, sender, p, now, if lost then Loses else Completes)
      ensures View().events == old(View()).events
    {
      if session != Some(p.session) || provider != sender || !CanTransition(status, p.status) {
        return Ignored;
      }
      if Undocumented(p) || lost {
        return Broken;
      }
      Accept(p, now);
      verdict := Processed;
    }

    method Receive(sender: Provider, id: string, digest: string, p: Payload, now: int, fate: Fate)
      requires Inv(View().contract)
      modifies this
      ensures View() == Handle(old(View()), sender, id, digest, p, now, fate)
      ensures Inv(View().contract)
    {
      ProcessKeepsInv(View().contract, sender, p, now, fate);
      var key := (sender, id);
      if key in events && (events[key].digest != digest || events[key].verdict != Broken) {
        return;
      }
      ProcessEvent(sender, id, digest, p, now, fate);
    }
  }
}
