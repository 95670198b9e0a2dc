/** A property listing: drafting, review with its ownership evidence, deal status, and the media that may be shown. */
module Listings {
  import opened Common

  datatype Status = Draft | PendingReview | Active | Inactive | Rejected

  datatype Deal = Available | Reserved | Contracting | Completed | Withdrawn

  datatype ListingType = Brokerage | OwnerDirect

  datatype Ownership = Unreviewed | Verified | Refused

  datatype Kind = Image | Video

  datatype Media = Media(kind: Kind, shown: bool)

  datatype UploadStatus = Requested | Processing | Ready | Failed

  datatype Upload = Upload(media: Media, status: UploadStatus)

  datatype Listing = Listing(
    listingType: ListingType,
    status: Status,
    deal: Deal,
    ownership: Option<Ownership>,
    media: seq<Media>,
    uploads: seq<Upload>)

  // ---------- counting media ----------

  predicate Counted(m: Media, kind: Kind, shownOnly: bool) {
    m.kind == kind && (shownOnly ==> m.shown)
  }

  function Tally(ms: seq<Media>, kind: Kind, shownOnly: bool): nat {
    if ms == [] then 0
    else Tally(ms[..|ms| - 1], kind, shownOnly) + if Counted(ms[|ms| - 1], kind, shownOnly) then 1 else 0
  }

  predicate Waiting(u: Upload, kind: Kind, shownOnly: bool) {
    (u.status == Requested || u.status == Processing) && Counted(u.media, kind, shownOnly)
  }

  function Queued(us: seq<Upload>, kind: Kind, shownOnly: bool): nat {
    if us == [] then 0
    else Queued(us[..|us| - 1], kind, shownOnly) + if Waiting(us[|us| - 1], kind, shownOnly) then 1 else 0
  }

  function Limit(kind: Kind, shownOnly: bool): nat {
    match kind
    case Image => if shownOnly then 10 else 20
    case Video => if shownOnly then 1 else 3
  }

  function Load(l: Listing, kind: Kind, shownOnly: bool): nat {
    Tally(l.media, kind, shownOnly) + Queued(l.uploads, kind, shownOnly)
  }

  predicate HasPicture(ms: seq<Media>) {
    Media(Image, true) in ms
  }

  // ---------- the operations ----------

  /** Evidence as submitted; declared says that both declarations were accepted. */
  datatype Evidence = Evidence(declared: bool)

  predicate MediaAllowed(ms: seq<Media>) {
    && Tally(ms, Image, false) <= Limit(Image, false) && Tally(ms, Video, false) <= Limit(Video, false)
    && Tally(ms, Image, true) <= Limit(Image, true) && Tally(ms, Video, true) <= Limit(Video, true)
  }

  function Opening(listingType: ListingType, media: seq<Media>): Listing {
    Listing(listingType, Draft, Available, if listingType == OwnerDirect then Some(Unreviewed) else None, media, [])
  }

  /** entitled: an active broker for a brokerage listing, a phone-verified user for a direct one. */
  function Create(given: Option<ListingType>, evidence: Option<Evidence>, entitled: bool, media: seq<Media>)
      : Option<Listing> {
    var listingType := if given.Some? then given.value else if evidence.Some? then OwnerDirect else Brokerage;
    if !entitled || !MediaAllowed(media) then None
    else if listingType == Brokerage && evidence.Some? then None
    else if listingType == OwnerDirect && (evidence.None? || !evidence.value.declared) then None
    else Some(Opening(listingType, media))
  }

  predicate Redraftable(s: Status) {
    s == Draft || s == Rejected
  }

  predicate UpdateAllowed(l: Listing, given: Option<ListingType>, evidence: Option<Evidence>, entitled: bool,
                          media: seq<Media>) {
    && MediaAllowed(media) && Redraftable(l.status) && entitled
    && (given.Some? ==> given.value == l.listingType)
    && (evidence.Some? ==> l.listingType == OwnerDirect && evidence.value.declared)
  }

  /** The write of an update, which does not look at the status again. */
  function Redrafted(l: Listing, evidence: Option<Evidence>, media: seq<Media>): Listing {
    l.(status := Draft, media := media, ownership := if evidence.Some? then Some(Unreviewed) else l.ownership)
  }

  function Update(l: Listing, given: Option<ListingType>, evidence: Option<Evidence>, entitled: bool,
                  media: seq<Media>): Listing {
    if UpdateAllowed(l, given, evidence, entitled, media) then Redrafted(l, evidence, media) else l
  }

  predicate SubmitAllowed(l: Listing, entitled: bool) {
    && Redraftable(l.status) && entitled
    && (l.listingType == OwnerDirect ==> l.ownership == Some(Unreviewed))
    && HasPicture(l.media)
  }

  /** The write of a submission, guarded on the status alone. */
  function Submitted(l: Listing): Listing {
    if Redraftable(l.status) then l.(status := PendingReview) else l
  }

  function Submit(l: Listing, entitled: bool): Listing {
    if SubmitAllowed(l, entitled) then Submitted(l) else l
  }

  datatype Ruling = Reviewed | NotPending | OwnershipConflict

  function Review(l: Listing, approve: bool): (Listing, Ruling) {
    if l.status != PendingReview then (l, NotPending)
    else if l.listingType == OwnerDirect && l.ownership != Some(Unreviewed) then (l, OwnershipConflict)
    else
      (l.(status := if approve then Active else Rejected,
          ownership := if l.listingType == Brokerage then l.ownership
                       else Some(if approve then Verified else Refused)),
       Reviewed)
  }

  predicate Over(d: Deal) {
    d == Completed || d == Withdrawn
  }

  predicate AllowedDeal(current: Deal, next: Deal) {
    match current
    case Available => next in {Reserved, Contracting, Completed, Withdrawn}
    case Reserved => next in {Available, Contracting, Completed, Withdrawn}
    case Contracting => next in {Available, Reserved, Completed, Withdrawn}
    case Completed => false
    case Withdrawn => false
  }

  /** current says that the caller saw the listing's latest update. */
  function ChangeDeal(l: Listing, next: Deal, current: bool): Listing {
    if l.status != Active || !AllowedDeal(l.deal, next) || !current then l
    else l.(deal := next, status := if Over(next) then Inactive else Active)
  }

  function Deactivate(l: Listing): Listing {
    if l.status == Active then l.(status := Inactive) else l
  }

  predicate Editable(l: Listing) {
    Redraftable(l.status) || (l.status == Active && !Over(l.deal))
  }

  predicate Room(l: Listing, m: Media) {
    Load(l, m.kind, false) < Limit(m.kind, false) && (m.shown ==> Load(l, m.kind, true) < Limit(m.kind, true))
  }

  /** queued is false when the job queue could not be reached. */
  function RequestUpload(l: Listing, m: Media, queued: bool): Listing {
    if !Editable(l) || !Room(l, m) then l
    else l.(uploads := l.uploads + [Upload(m, if queued then Requested else Failed)])
  }

  /** How an attempt at processing ended; a failure is final when permanent or on the last attempt. */
  datatype Work = Done | Broke(final: bool) | Crashed

  function Process(l: Listing, i: nat, work: Work): Listing {
    if i >= |l.uploads| || l.uploads[i].status == Ready || l.uploads[i].status == Failed then l
    else
      match work
      case Done => l.(media := l.media + [l.uploads[i].media], uploads := l.uploads[i := l.uploads[i].(status := Ready)])
      case Broke(final) => l.(uploads := l.uploads[i := l.uploads[i].(status := if final then Failed else Requested)])
      case Crashed => l.(uploads := l.uploads[i := l.uploads[i].(status := Processing)])
  }

  function DeleteMedia(l: Listing, i: nat): Listing {
    if i >= |l.media| || !Editable(l) then l
    else if l.status == Active && l.media[i] == Media(Image, true) && Tally(l.media, Image, true) <= 1 then l
    else l.(media := l.media[..i] + l.media[i + 1..])
  }

  /** The filter of the public search and detail pages. */
  predicate InSearch(l: Listing) {
    l.status == Active && (l.listingType == Brokerage || (l.listingType == OwnerDirect && l.ownership == Some(Verified)))
  }

  // ---------- runs ----------

  datatype Step =
    | UpdateStep(given: Option<ListingType>, evidence: Option<Evidence>, entitled: bool, media: seq<Media>)
    | SubmitStep(entitled: bool)
    | ReviewStep(approve: bool)
    | DealStep(next: Deal, current: bool)
    | DeactivateStep
    | RequestStep(item: Media, queued: bool)
    | ProcessStep(upload: nat, work: Work)
    | DeleteStep(index: nat)

  function Next(l: Listing, s: Step): Listing {
    match s
    case UpdateStep(given, evidence, entitled, media) => Update(l, given, evidence, entitled, media)
    case SubmitStep(entitled) => Submit(l, entitled)
    case ReviewStep(approve) => Review(l, approve).0
    case DealStep(next, current) => ChangeDeal(l, next, current)
    case DeactivateStep => Deactivate(l)
    case RequestStep(item, queued) => RequestUpload(l, item, queued)
    case ProcessStep(i, work) => Process(l, i, work)
    case DeleteStep(i) => DeleteMedia(l, i)
  }

  function Run(l: Listing, steps: seq<Step>): Listing
    decreases |steps|
  {
    if steps == [] then l else Run(Next(l, steps[0]), steps[1..])
  }

  // ---------- counting lemmas ----------

  lemma {:induction false} TallyAppend(a: seq<Media>, b: seq<Media>, kind: Kind, shownOnly: bool)
    ensures Tally(a + b, kind, shownOnly) == Tally(a, kind, shownOnly) + Tally(b, kind, shownOnly)
  {
    if b == [] {
      assert a + b == a;
    } else {
      TallyAppend(a, b[..|b| - 1], kind, shownOnly);
      assert (a + b)[..|a + b| - 1] == a + b[..|b| - 1];
    }
  }

  lemma TallyDelete(ms: seq<Media>, i: nat, kind: Kind, shownOnly: bool)
    requires i < |ms|
    ensures Tally(ms[..i] + ms[i + 1..], kind, shownOnly) ==
            Tally(ms, kind, shownOnly) - if Counted(ms[i], kind, shownOnly) then 1 else 0
  {
    TallyAppend(ms[..i], ms[i + 1..], kind, shownOnly);
    TallyAppend(ms[..i], [ms[i]], kind, shownOnly);
    TallyAppend(ms[..i] + [ms[i]], ms[i + 1..], kind, shownOnly);
    assert ms == ms[..i] + [ms[i]] + ms[i + 1..];
    assert Tally([ms[i]], kind, shownOnly) == if Counted(ms[i], kind, shownOnly) then 1 else 0;
  }

  lemma {:induction false} PictureIffTally(ms: seq<Media>)
    ensures HasPicture(ms) <==> Tally(ms, Image, true) >= 1
  {
    if ms != [] {
      var n := |ms| - 1;
      PictureIffTally(ms[..n]);
      assert ms == ms[..n] + [ms[n]];
    }
  }

  lemma {:induction false} QueuedUpdate(us: seq<Upload>, i: nat, u: Upload, kind: Kind, shownOnly: bool)
    requires i < |us|
    ensures Queued(us[i := u], kind, shownOnly) + (if Waiting(us[i], kind, shownOnly) then 1 else 0) ==
            Queued(us, kind, shownOnly) + (if Waiting(u, kind, shownOnly) then 1 else 0)
  {
    var n := |us| - 1;
    if i == n {
      assert us[i := u][..n] == us[..n];
    } else {
      QueuedUpdate(us[..n], i, u, kind, shownOnly);
      assert us[i := u][..n] == us[..n][i := u];
    }
  }

  // ---------- what every run keeps ----------

  predicate Public(s: Status) {
    s == PendingReview || s == Active || s == Inactive
  }

  predicate Inv(l: Listing) {
    && (Public(l.status) ==> HasPicture(l.media))
    && (l.listingType == OwnerDirect <==> l.ownership.Some?)
    && (l.listingType == OwnerDirect ==>
          && (l.status == PendingReview ==> l.ownership == Some(Unreviewed))
          && (l.ownership == Some(Verified) <==> l.status == Active || l.status == Inactive))
    && (Over(l.deal) ==> l.status == Inactive)
    && (l.deal != Available ==> l.status == Active || l.status == Inactive)
  }

  lemma CreatedInv(given: Option<ListingType>, evidence: Option<Evidence>, entitled: bool, media: seq<Media>)
    ensures var r := Create(given, evidence, entitled, media);
            r.Some? ==> Inv(r.value) && (r.value.ownership.Some? <==> evidence.Some?)
  {
  }

  lemma DeleteKeepsPicture(l: Listing, i: nat)
    requires i < |l.media| && l.status == Active && HasPicture(l.media)
    ensures HasPicture(DeleteMedia(l, i).media)
  {
    PictureIffTally(l.media);
    PictureIffTally(DeleteMedia(l, i).media);
    TallyDelete(l.media, i, Image, true);
  }

  lemma NextKeepsInv(l: Listing, s: Step)
    requires Inv(l)
    ensures Inv(Next(l, s))
  {
    match s
    case DeleteStep(i) =>
      if i < |l.media| && l.status == Active {
        DeleteKeepsPicture(l, i);
      }
    case _ =>
  }

  lemma {:induction false} RunsKeepInv(l: Listing, steps: seq<Step>)
    requires Inv(l)
    ensures Inv(Run(l, steps))
    decreases |steps|
  {
    if steps != [] {
      NextKeepsInv(l, steps[0]);
      RunsKeepInv(Next(l, steps[0]), steps[1..]);
    }
  }

  /** Whatever happens to a created listing: one under review, public or retired shows a public image; it is in the
      public search exactly when it is active, although the filter also asks for verified ownership; a finished deal is
      never active; and review never finds the ownership evidence in the wrong state. */
  lemma ReachableListings(given: Option<ListingType>, evidence: Option<Evidence>, entitled: bool, media: seq<Media>,
                          steps: seq<Step>)
    requires Create(given, evidence, entitled, media).Some?
    ensures var l := Run(Create(given, evidence, entitled, media).value, steps);
            && (Public(l.status) ==> exists i :: 0 <= i < |l.media| && l.media[i].kind == Image && l.media[i].shown)
            && (InSearch(l) <==> l.status == Active)
            && (Over(l.deal) ==> l.status != Active)
            && Review(l, true).1 != OwnershipConflict && Review(l, false).1 != OwnershipConflict
  {
    CreatedInv(given, evidence, entitled, media);
    RunsKeepInv(Create(given, evidence, entitled, media).value, steps);
  }

  /** Nothing brings an inactive listing back or changes its deal or its ownership. */
  lemma {:induction false} InactiveIsFinal(l: Listing, steps: seq<Step>)
    requires l.status == Inactive
    ensures var l' := Run(l, steps); l'.status == Inactive && l'.deal == l.deal && l'.ownership == l.ownership
    decreases |steps|
  {
    if steps != [] {
      InactiveIsFinal(Next(l, steps[0]), steps[1..]);
    }
  }

  /** After its evidence was refused, a direct listing stays out of review and out of the search until an update
      brings new evidence. */
  lemma {:induction false} RefusedStaysOut(l: Listing, steps: seq<Step>)
    requires l.listingType == OwnerDirect && l.ownership == Some(Refused) && Redraftable(l.status)
    requires forall i :: 0 <= i < |steps| && steps[i].UpdateStep? ==> steps[i].evidence.None?
    ensures var l' := Run(l, steps); l'.ownership == Some(Refused) && Redraftable(l'.status) && !InSearch(l')
    decreases |steps|
  {
    if steps != [] {
      var l1 := Next(l, steps[0]);
      assert steps[0].UpdateStep? ==> steps[0].evidence.None?;
      RefusedStaysOut(l1, steps[1..]);
    }
  }

  // ---------- checks that are read before the write ----------

  /** A submission checks images and evidence before its write, which is guarded on the status alone. Written to a later
      draft it keeps the invariant exactly when that draft still passes both checks. */
  lemma LateSubmissionKeepsInvIff(l: Listing)
    requires Inv(l) && Redraftable(l.status)
    ensures Inv(Submitted(l)) <==>
            HasPicture(l.media) && (l.listingType == OwnerDirect ==> l.ownership == Some(Unreviewed))
  {
    assert l.deal == Available;
  }

  /** An update's write is not guarded at all. Landing on a listing that has meanwhile moved on, it keeps the invariant
      exactly when no deal was recorded and the ownership was not verified or is submitted again. */
  lemma LateUpdateKeepsInvIff(l: Listing, evidence: Option<Evidence>, media: seq<Media>)
    requires Inv(l) && (evidence.Some? ==> l.listingType == OwnerDirect)
    ensures Inv(Redrafted(l, evidence, media)) <==>
            l.deal == Available && (l.ownership == Some(Verified) ==> evidence.Some?)
  {
    assert l.listingType == Brokerage ==> l.ownership.None?;
  }

  lemma {:induction false} RunInTwoParts(l: Listing, first: seq<Step>, second: seq<Step>)
    ensures Run(l, first + second) == Run(Run(l, first), second)
    decreases |first|
  {
    if first == [] {
      assert first + second == second;
    } else {
      assert (first + second)[1..] == first[1..] + second;
      RunInTwoParts(Next(l, first[0]), first[1..], second);
    }
  }

  lemma TwoSteps(l: Listing, a: Step, b: Step)
    ensures Run(l, [a, b]) == Next(Next(l, a), b)
  {
    assert [a, b][1..] == [b] && [b][1..] == [];
    assert Run(Next(l, a), [b]) == Run(Next(Next(l, a), b), []);
  }

  /** A brokerage listing with one picture is submitted and approved. */
  lemma Published(l: Listing)
    requires l.listingType == Brokerage && l.status == Draft && HasPicture(l.media)
    ensures Run(l, [SubmitStep(true), ReviewStep(true)]) == l.(status := Active)
  {
    TwoSteps(l, SubmitStep(true), ReviewStep(true));
  }

  /** An update passes its check on a fresh draft; before it is written, the listing is submitted, approved and withdrawn.
      After the write the listing can be submitted and approved once more, and is then in the search, still withdrawn. */
  lemma LateUpdateRepublishes() returns (l: Listing, media: seq<Media>, between: seq<Step>, after: seq<Step>)
    ensures Create(Some(Brokerage), None, true, media) == Some(l) && UpdateAllowed(l, None, None, true, media)
    ensures Run(l, between).status == Inactive && Run(l, between).deal == Withdrawn
    ensures var l' := Run(Redrafted(Run(l, between), None, media), after); InSearch(l') && l'.deal == Withdrawn
  {
    media := [Media(Image, true)];
    assert media[..0] == [];
    assert forall kind, shownOnly ::
        Tally(media, kind, shownOnly) == if Counted(media[0], kind, shownOnly) then 1 else 0;
    l := Opening(Brokerage, media);
    var publish := [SubmitStep(true), ReviewStep(true)];
    var withdraw := [DealStep(Withdrawn, true)];
    between, after := publish + withdraw, publish;
    Published(l);
    RunInTwoParts(l, publish, withdraw);
    assert withdraw[1..] == [];
    Published(Redrafted(Run(l, between), None, media));
  }

  /** A submission passes its check; before it is written the only picture is deleted, and the listing is under review
      without one. */
  lemma LateSubmissionLacksPicture() returns (l: Listing)
    ensures Create(Some(Brokerage), None, true, l.media) == Some(l) && SubmitAllowed(l, true)
    ensures var l' := Submitted(Next(l, DeleteStep(0))); l'.status == PendingReview && !HasPicture(l'.media)
  {
    l := Opening(Brokerage, [Media(Image, true)]);
    assert l.media[..0] == [];
    assert forall kind, shownOnly ::
        Tally(l.media, kind, shownOnly) == if Counted(l.media[0], kind, shownOnly) then 1 else 0;
  }

  // ---------- media limits ----------

  ghost predicate WithinLimits(l: Listing) {
    forall kind, shownOnly :: Load(l, kind, shownOnly) <= Limit(kind, shownOnly)
  }

  lemma RequestLoad(l: Listing, m: Media, queued: bool, kind: Kind, shownOnly: bool)
    requires Editable(l) && Room(l, m)
    ensures Load(RequestUpload(l, m, queued), kind, shownOnly) ==
            Load(l, kind, shownOnly) + if queued && Counted(m, kind, shownOnly) then 1 else 0
  {
    var us := RequestUpload(l, m, queued).uploads;
    assert us[..|us| - 1] == l.uploads;
  }

  /** Processing moves an item from the queue to the media: the load it claimed is the load it takes. */
  lemma ProcessLoad(l: Listing, i: nat, work: Work, kind: Kind, shownOnly: bool)
    ensures var l' := Process(l, i, work);
            && Load(l', kind, shownOnly) <= Load(l, kind, shownOnly)
            && (!(work.Broke? && work.final) ==> Load(l', kind, shownOnly) == Load(l, kind, shownOnly))
            && Queued(l'.uploads, kind, shownOnly) <= Queued(l.uploads, kind, shownOnly)
  {
    var l' := Process(l, i, work);
    if l' != l {
      QueuedUpdate(l.uploads, i, l'.uploads[i], kind, shownOnly);
      TallyAppend(l.media, [l.uploads[i].media], kind, shownOnly);
      assert Tally([l.uploads[i].media], kind, shownOnly) == if Counted(l.uploads[i].media, kind, shownOnly) then 1 else 0;
    }
  }

  lemma DeleteLoad(l: Listing, i: nat, kind: Kind, shownOnly: bool)
    ensures Load(DeleteMedia(l, i), kind, shownOnly) <= Load(l, kind, shownOnly)
  {
    if i < |l.media| {
      TallyDelete(l.media, i, kind, shownOnly);
    }
  }

  /** Requests, processing and deletion keep images and videos, ready or queued, within their limits. */
  lemma NextKeepsLimits(l: Listing, s: Step)
    requires WithinLimits(l) && !s.UpdateStep?
    ensures WithinLimits(Next(l, s))
  {
    forall kind, shownOnly
      ensures Load(Next(l, s), kind, shownOnly) <= Limit(kind, shownOnly)
    {
      match s
      case RequestStep(m, queued) =>
        if Editable(l) && Room(l, m) {
          RequestLoad(l, m, queued, kind, shownOnly);
        }
      case ProcessStep(i, work) => ProcessLoad(l, i, work, kind, shownOnly);
      case DeleteStep(i) => DeleteLoad(l, i, kind, shownOnly);
      case _ =>
    }
  }

  ghost predicate NoUpdates(steps: seq<Step>) {
    forall i :: 0 <= i < |steps| ==> !steps[i].UpdateStep?
  }

  lemma {:induction false} RunsKeepLimits(l: Listing, steps: seq<Step>)
    requires WithinLimits(l) && NoUpdates(steps)
    ensures WithinLimits(Run(l, steps))
    decreases |steps|
  {
    if steps != [] {
      NextKeepsLimits(l, steps[0]);
      RunsKeepLimits(Next(l, steps[0]), steps[1..]);
    }
  }

  /** An update replaces the media without looking at the queue, so with updates only twice the limit is kept. */
  ghost predicate WithinTwice(l: Listing) {
    forall kind, shownOnly ::
      Queued(l.uploads, kind, shownOnly) <= Limit(kind, shownOnly) && Load(l, kind, shownOnly) <= 2 * Limit(kind, shownOnly)
  }

  lemma NextKeepsTwice(l: Listing, s: Step)
    requires WithinTwice(l)
    ensures WithinTwice(Next(l, s))
  {
    var l' := Next(l, s);
    forall kind, shownOnly
      ensures Queued(l'.uploads, kind, shownOnly) <= Limit(kind, shownOnly)
              && Load(l', kind, shownOnly) <= 2 * Limit(kind, shownOnly)
    {
      match s
      case UpdateStep(_, _, _, media) =>
        if MediaAllowed(media) {
          assert Tally(media, kind, shownOnly) <= Limit(kind, shownOnly);
        }
      case RequestStep(m, queued) =>
        if Editable(l) && Room(l, m) {
          RequestLoad(l, m, queued, kind, shownOnly);
        }
      case ProcessStep(i, work) => ProcessLoad(l, i, work, kind, shownOnly);
      case DeleteStep(i) => DeleteLoad(l, i, kind, shownOnly);
      case _ =>
    }
  }

  lemma {:induction false} RunsKeepTwice(l: Listing, steps: seq<Step>)
    requires WithinTwice(l)
    ensures WithinTwice(Run(l, steps))
    decreases |steps|
  {
    if steps != [] {
      NextKeepsTwice(l, steps[0]);
      RunsKeepTwice(Next(l, steps[0]), steps[1..]);
    }
  }

  /** From creation on: the limits hold as long as no update is made, and twice the limits hold in any case. */
  lemma MediaStaysBounded(given: Option<ListingType>, evidence: Option<Evidence>, entitled: bool, media: seq<Media>,
                          steps: seq<Step>)
    requires Create(given, evidence, entitled, media).Some?
    ensures var l := Run(Create(given, evidence, entitled, media).value, steps);
            && WithinTwice(l)
            && (NoUpdates(steps) ==> WithinLimits(l))
  {
    var l := Create(given, evidence, entitled, media).value;
    forall kind, shownOnly
      ensures Load(l, kind, shownOnly) <= Limit(kind, shownOnly)
    {
      assert Load(l, kind, shownOnly) == Tally(media, kind, shownOnly);
    }
    RunsKeepTwice(l, steps);
    if NoUpdates(steps) {
      RunsKeepLimits(l, steps);
    }
  }

  /** The check an update would make if it counted the queue, as a request for an upload does. */
  predicate MediaAllowedBesideQueue(l: Listing, media: seq<Media>) {
    && Tally(media, Image, false) + Queued(l.uploads, Image, false) <= Limit(Image, false)
    && Tally(media, Video, false) + Queued(l.uploads, Video, false) <= Limit(Video, false)
    && Tally(media, Image, true) + Queued(l.uploads, Image, true) <= Limit(Image, true)
    && Tally(media, Video, true) + Queued(l.uploads, Video, true) <= Limit(Video, true)
  }

  /** Every upload still queued may yet be processed: an accepted update keeps the limits through any later requests,
      processing and deletions exactly when it would have passed the check it omits. */
  lemma UpdateKeepsLimitsIff(l: Listing, given: Option<ListingType>, evidence: Option<Evidence>, entitled: bool,
                             media: seq<Media>)
    requires UpdateAllowed(l, given, evidence, entitled, media)
    ensures (forall steps :: NoUpdates(steps) ==> WithinLimits(Run(Update(l, given, evidence, entitled, media), steps)))
            <==> MediaAllowedBesideQueue(l, media)
  {
    var l' := Update(l, given, evidence, entitled, media);
    forall kind, shownOnly
      ensures Load(l', kind, shownOnly) == Tally(media, kind, shownOnly) + Queued(l.uploads, kind, shownOnly)
    {
    }
    if MediaAllowedBesideQueue(l, media) {
      forall steps | NoUpdates(steps)
        ensures WithinLimits(Run(l', steps))
      {
        RunsKeepLimits(l', steps);
      }
    } else {
      assert NoUpdates([]) && Run(l', []) == l';
    }
  }

  /** A listing allowed one public video ends up with two. */
  lemma TwoPublicVideos()
    ensures exists steps :: Tally(Run(Opening(Brokerage, []), steps).media, Video, true) == 2 > Limit(Video, true)
  {
    var film := Media(Video, true);
    var l0 := Opening(Brokerage, []);
    var steps := [RequestStep(film, true), UpdateStep(None, None, true, [film]), ProcessStep(0, Done)];
    var l1, l2 := Next(l0, steps[0]), Next(Next(l0, steps[0]), steps[1]);
    assert l1 == l0.(uploads := [Upload(film, Requested)]);
    assert Tally([film], Video, true) == 1 && Tally([film], Video, false) == 1;
    assert Tally([film], Image, true) == 0 && Tally([film], Image, false) == 0;
    assert l2 == l1.(media := [film]);
    assert Next(l2, steps[2]).media == [film, film];
    assert [film, film][..1] == [film];
    assert steps[1..] == [steps[1], steps[2]] && steps[1..][1..] == [steps[2]] && [steps[2]][1..] == [];
    assert Run(l2, [steps[2]]) == Next(l2, steps[2]);
    assert Run(l1, steps[1..]) == Run(l2, [steps[2]]);
    assert Run(l0, steps) == Next(l2, steps[2]);
  }

  // ---------- what each operation answers ----------

  ghost function Places(ms: seq<Media>, kind: Kind, shownOnly: bool): set<int> {
    set i | 0 <= i < |ms| && ms[i].kind == kind && (shownOnly ==> ms[i].shown)
  }

  lemma OnePlaceMore(ms: seq<Media>, kind: Kind, shownOnly: bool)
    requires ms != []
    ensures var n := |ms| - 1;
            && n !in Places(ms[..n], kind, shownOnly)
            && Places(ms, kind, shownOnly)
               == if ms[n].kind == kind && (shownOnly ==> ms[n].shown) then Places(ms[..n], kind, shownOnly) + {n}
                  else Places(ms[..n], kind, shownOnly)
  {
  }

  lemma {:induction false} TallyCounts(ms: seq<Media>, kind: Kind, shownOnly: bool)
    ensures Tally(ms, kind, shownOnly) == |Places(ms, kind, shownOnly)|
  {
    if ms != [] {
      TallyCounts(ms[..|ms| - 1], kind, shownOnly);
      OnePlaceMore(ms, kind, shownOnly);
    }
  }

  ghost function WaitingPlaces(us: seq<Upload>, kind: Kind, shownOnly: bool): set<int> {
    set i | 0 <= i < |us| && us[i].status != Ready && us[i].status != Failed
            && us[i].media.kind == kind && (shownOnly ==> us[i].media.shown)
  }

  lemma OneWaitingMore(us: seq<Upload>, kind: Kind, shownOnly: bool)
    requires us != []
    ensures var n := |us| - 1;
            && n !in WaitingPlaces(us[..n], kind, shownOnly)
            && WaitingPlaces(us, kind, shownOnly)
               == if us[n].status != Ready && us[n].status != Failed && us[n].media.kind == kind && (shownOnly ==> us[n].media.shown)
                  then WaitingPlaces(us[..n], kind, shownOnly) + {n} else WaitingPlaces(us[..n], kind, shownOnly)
  {
  }

  lemma {:induction false} QueuedCounts(us: seq<Upload>, kind: Kind, shownOnly: bool)
    ensures Queued(us, kind, shownOnly) == |WaitingPlaces(us, kind, shownOnly)|
  {
    if us != [] {
      QueuedCounts(us[..|us| - 1], kind, shownOnly);
      OneWaitingMore(us, kind, shownOnly);
    }
  }

  /** Twenty images and three videos, of which ten images and one video may be public. */
  function Allowance(kind: Kind, shownOnly: bool): nat {
    if kind == Image then (if shownOnly then 10 else 20) else (if shownOnly then 1 else 3)
  }

  ghost predicate Fits(ms: seq<Media>) {
    forall kind, shownOnly :: |Places(ms, kind, shownOnly)| <= Allowance(kind, shownOnly)
  }

  lemma AllowedIffFits(ms: seq<Media>)
    ensures MediaAllowed(ms) <==> Fits(ms)
  {
    TallyCounts(ms, Image, false);
    TallyCounts(ms, Video, false);
    TallyCounts(ms, Image, true);
    TallyCounts(ms, Video, true);
    if MediaAllowed(ms) {
      forall kind, shownOnly
        ensures |Places(ms, kind, shownOnly)| <= Allowance(kind, shownOnly)
      {
        TallyCounts(ms, kind, shownOnly);
      }
    } else {
      assert !Fits(ms) by {
        assert |Places(ms, Image, false)| > Allowance(Image, false) || |Places(ms, Video, false)| > Allowance(Video, false)
               || |Places(ms, Image, true)| > Allowance(Image, true) || |Places(ms, Video, true)| > Allowance(Video, true);
      }
    }
  }

  /** A listing is created as a draft exactly for somebody entitled, within the media limits, with declared ownership
      evidence for a direct listing and none for a brokerage one; evidence alone makes it direct. */
  lemma CreationAnswers(given: Option<ListingType>, evidence: Option<Evidence>, entitled: bool, media: seq<Media>)
    ensures var direct := given == Some(OwnerDirect) || (given.None? && evidence.Some?);
            Create(given, evidence, entitled, media)
            == if entitled && Fits(media) && (if direct then evidence == Some(Evidence(true)) else evidence.None?)
               then Some(Listing(if direct then OwnerDirect else Brokerage, Draft, Available,
                                 if direct then Some(Unreviewed) else None, media, []))
               else None
  {
    AllowedIffFits(media);
  }

  /** An update is taken exactly for a draft or rejected listing, within the limits, of the same kind, with evidence only for
      a direct listing and then declared; the listing is a draft again, and new evidence is unreviewed. */
  lemma UpdateAnswers(l: Listing, given: Option<ListingType>, evidence: Option<Evidence>, entitled: bool, media: seq<Media>)
    ensures Next(l, UpdateStep(given, evidence, entitled, media))
            == if (l.status == Draft || l.status == Rejected) && entitled && Fits(media)
                  && (given.None? || given == Some(l.listingType))
                  && (evidence.None? || (l.listingType == OwnerDirect && evidence == Some(Evidence(true))))
               then l.(status := Draft, media := media, ownership := if evidence.Some? then Some(Unreviewed) else l.ownership)
               else l
  {
    AllowedIffFits(media);
  }

  /** A submission puts a draft or rejected listing under review exactly with a public image and, if direct, with evidence
      that nobody has reviewed. A review moves a listing under review, and its evidence with it; a report takes an active
      listing out of publication. */
  lemma ReviewStepsAnswer(l: Listing, entitled: bool, approve: bool)
    requires Inv(l)
    ensures Next(l, SubmitStep(entitled))
            == if (l.status == Draft || l.status == Rejected) && entitled
                  && (exists i :: 0 <= i < |l.media| && l.media[i].kind == Image && l.media[i].shown)
                  && (l.listingType == OwnerDirect ==> l.ownership == Some(Unreviewed))
               then l.(status := PendingReview) else l
    ensures var (l', ruling) := Review(l, approve);
            && Next(l, ReviewStep(approve)) == l'
            && ruling == (if l.status == PendingReview then Reviewed else NotPending)
            && l' == if l.status != PendingReview then l
                     else if approve then l.(status := Active,
                                             ownership := if l.listingType == OwnerDirect then Some(Verified) else None)
                     else l.(status := Rejected, ownership := if l.listingType == OwnerDirect then Some(Refused) else None)
    ensures Next(l, DeactivateStep) == if l.status == Active then l.(status := Inactive) else l
  {
    assert HasPicture(l.media) <==> exists i :: 0 <= i < |l.media| && l.media[i].kind == Image && l.media[i].shown by {
      if i :| 0 <= i < |l.media| && l.media[i].kind == Image && l.media[i].shown {
        assert l.media[i] == Media(Image, true);
      }
    }
  }

  /** The deal of an active listing may be set to any other status until it is completed or withdrawn, which also takes the
      listing out of publication; a caller who saw an older version is refused. */
  lemma DealAnswers(l: Listing, next: Deal, current: bool)
    ensures Next(l, DealStep(next, current))
            == if l.status == Active && current && next != l.deal && l.deal != Completed && l.deal != Withdrawn
               then l.(deal := next, status := if next == Completed || next == Withdrawn then Inactive else Active) else l
  {
  }

  ghost predicate OpenToMedia(l: Listing) {
    || l.status == Draft || l.status == Rejected
    || (l.status == Active && l.deal != Completed && l.deal != Withdrawn)
  }

  ghost predicate HasRoom(l: Listing, kind: Kind, shownOnly: bool) {
    |Places(l.media, kind, shownOnly)| + |WaitingPlaces(l.uploads, kind, shownOnly)| < Allowance(kind, shownOnly)
  }

  /** An upload is taken exactly while media may be changed and the kind, and the public part of it, has room beside what is
      still queued; without the queue it is recorded as failed. */
  lemma UploadAnswers(l: Listing, m: Media, queued: bool)
    ensures Next(l, RequestStep(m, queued))
            == if OpenToMedia(l) && HasRoom(l, m.kind, false) && (m.shown ==> HasRoom(l, m.kind, true))
               then l.(uploads := l.uploads + [Upload(m, if queued then Requested else Failed)]) else l
  {
    TallyCounts(l.media, m.kind, false);
    TallyCounts(l.media, m.kind, true);
    QueuedCounts(l.uploads, m.kind, false);
    QueuedCounts(l.uploads, m.kind, true);
  }

  /** An upload that is waiting or in work becomes one media item, goes back to the queue, fails for good, or stays in work;
      a finished one is left alone. */
  lemma ProcessAnswers(l: Listing, i: nat, work: Work)
    ensures var l' := Next(l, ProcessStep(i, work));
            if i >= |l.uploads| || l.uploads[i].status == Ready || l.uploads[i].status == Failed then l' == l
            else
              && l' == l.(media := l'.media, uploads := l.uploads[i := Upload(l.uploads[i].media, l'.uploads[i].status)])
              && l'.media == (if work.Done? then l.media + [l.uploads[i].media] else l.media)
              && (work.Done? ==> l'.uploads[i].status == Ready)
              && (work.Broke? ==> l'.uploads[i].status == if work.final then Failed else Requested)
              && (work.Crashed? ==> l'.uploads[i].status == Processing)
  {
  }

  /** A media item is removed exactly while media may be changed, except the only public image of an active listing. */
  lemma DeletionAnswers(l: Listing, i: nat)
    ensures Next(l, DeleteStep(i))
            == if i < |l.media| && OpenToMedia(l)
                  && !(l.status == Active && l.media[i] == Media(Image, true)
                       && forall j :: 0 <= j < |l.media| && j != i ==> l.media[j] != Media(Image, true))
               then l.(media := l.media[..i] + l.media[i + 1..]) else l
  {
    if i < |l.media| && l.media[i] == Media(Image, true) {
      LastPictureIff(l.media, i);
    }
  }

  lemma LastPictureIff(ms: seq<Media>, i: nat)
    requires i < |ms| && ms[i] == Media(Image, true)
    ensures Tally(ms, Image, true) <= 1 <==> forall j :: 0 <= j < |ms| && j != i ==> ms[j] != Media(Image, true)
  {
    var rest := ms[..i] + ms[i + 1..];
    TallyDelete(ms, i, Image, true);
    PictureIffTally(rest);
    if j :| 0 <= j < |ms| && j != i && ms[j] == Media(Image, true) {
      assert rest[if j < i then j else j - 1] == Media(Image, true);
    }
    if HasPicture(rest) {
      var k :| 0 <= k < |rest| && rest[k] == Media(Image, true);
      assert ms[if k < i then k else k + 1] == Media(Image, true);
    }
  }

  lemma {:induction false} LastStep(l: Listing, steps: seq<Step>)
    requires steps != []
    ensures Run(l, steps) == Next(Run(l, steps[..|steps| - 1]), steps[|steps| - 1])
    decreases |steps|
  {
    if |steps| > 1 {
      assert steps[1..][..|steps| - 2] == steps[..|steps| - 1][1..];
      LastStep(Next(l, steps[0]), steps[1..]);
    } else {
      assert steps[1..] == [] && steps[..0] == [];
    }
  }

  /** A listing is public only after a review approved it. */
  lemma {:induction false} PublishedByReview(l: Listing, steps: seq<Step>)
    requires l.status == Draft && (Run(l, steps).status == Active || Run(l, steps).status == Inactive)
    ensures exists k :: 0 <= k < |steps| && steps[k] == ReviewStep(true) && Run(l, steps[..k]).status == PendingReview
    decreases |steps|
  {
    var n := |steps| - 1;
    assert steps != [];
    LastStep(l, steps);
    var before := Run(l, steps[..n]);
    if before.status == Active || before.status == Inactive {
      PublishedByReview(l, steps[..n]);
      var k :| 0 <= k < n && steps[..n][k] == ReviewStep(true) && Run(l, steps[..n][..k]).status == PendingReview;
      assert steps[..n][..k] == steps[..k];
      assert steps[k] == ReviewStep(true);
    } else {
      assert steps[n] == ReviewStep(true);
    }
  }

  // ---------- the services ----------

  class ListingService {
    const listingType: ListingType
    var status: Status
    var deal: Deal
    var ownership: Option<Ownership>
    var media: seq<Media>
    var uploads: seq<Upload>

    function View(): Listing
      reads this
    {
      Listing(listingType, status, deal, ownership, media, uploads)
    }

    constructor (listingType: ListingType, media: seq<Media>)
      ensures View() == Opening(listingType, media) && Inv(View())
    {
      this.listingType, this.media := listingType, media;
      status, deal, uploads := Draft, Available, [];
      ownership := if listingType == OwnerDirect then Some(Unreviewed) else None;
    }

    method Edit(given: Option<ListingType>, evidence: Option<Evidence>, entitled: bool, replacement: seq<Media>)
      requires Inv(View())
      modifies this
      ensures View() == Update(old(View()), given, evidence, entitled, replacement) && Inv(View())
    {
      NextKeepsInv(View(), UpdateStep(given, evidence, entitled, replacement));
      if !MediaAllowed(replacement) || (status != Draft && status != Rejected) || !entitled {
        return;
      }
      if given.Some? && given.value != listingType {
        return;
      }
      if evidence.Some? {
        if listingType == Brokerage || !evidence.value.declared {
          return;
        }
        ownership := Some(Unreviewed);
      }
      status := Draft;
      media := replacement;
    }

    method SubmitForReview(entitled: bool)
      requires Inv(View())
      modifies this
      ensures View() == Submit(old(View()), entitled) && Inv(View())
    {
      NextKeepsInv(View(), SubmitStep(entitled));
      if (status != Draft && status != Rejected) || !entitled {
        return;
      }
      if listingType == OwnerDirect && ownership != Some(Unreviewed) {
        return;
      }
      if Media(Image, true) in media {
        status := PendingReview;
      }
    }

    method Decide(approve: bool) returns (ruling: Ruling)
      requires Inv(View())
      modifies this
      ensures (View(), ruling) == Review(old(View()), approve) && Inv(View()) && ruling != OwnershipConflict
    {
      NextKeepsInv(View(), ReviewStep(approve));
      if status != PendingReview {
        return NotPending;
      }
      if listingType == OwnerDirect {
        if ownership != Some(Unreviewed) {
          return OwnershipConflict;
        }
        ownership := Some(if approve then Verified else Refused);
      }
      status := if approve then Active else Rejected;
      return Reviewed;
    }

    method UpdateDealStatus(next: Deal, current: bool)
      requires Inv(View())
      modifies this
      ensures View() == ChangeDeal(old(View()), next, current) && Inv(View())
    {
      NextKeepsInv(View(), DealStep(next, current));
      if status == Active && AllowedDeal(deal, next) && current {
        deal := next;
        status := if next == Completed || next == Withdrawn then Inactive else Active;
      }
    }

    method DeactivateReported()
      requires Inv(View())
      modifies this
      ensures View() == Deactivate(old(View())) && Inv(View())
    {
      NextKeepsInv(View(), DeactivateStep);
      if status == Active {
        status := Inactive;
      }
    }

    method Request(item: Media, queued: bool)
      requires Inv(View())
      modifies this
      ensures View() == RequestUpload(old(View()), item, queued) && Inv(View())
    {
      NextKeepsInv(View(), RequestStep(item, queued));
      if !Editable(View()) || !Room(View(), item) {
        return;
      }
      uploads := uploads + [Upload(item, Requested)];
      if !queued {
        uploads := uploads[|uploads| - 1 := Upload(item, Failed)];
      }
    }

    method ProcessQueued(i: nat, work: Work)
      requires Inv(View())
      modifies this
      ensures View() == Process(old(View()), i, work) && Inv(View())
    {
      NextKeepsInv(View(), ProcessStep(i, work));
      if i >= |uploads| || uploads[i].status == Ready || uploads[i].status == Failed {
        return;
      }
      uploads := uploads[i := uploads[i].(status := Processing)];
      match work {
        case Done =>
          media := media + [uploads[i].media];
          uploads := uploads[i := uploads[i].(status := Ready)];
        case Broke(final) =>
          uploads := uploads[i := uploads[i].(status := if final then Failed else Requested)];
        case Crashed =>
      }
    }

    method Delete(i: nat)
      requires Inv(View())
      modifies this
      ensures View() == DeleteMedia(old(View()), i) && Inv(View())
    {
      NextKeepsInv(View(), DeleteStep(i));
      if i >= |media| || !Editable(View()) {
        return;
      }
      if status == Active && media[i].kind == Image && media[i].shown && Tally(media, Image, true) <= 1 {
        return;
      }
      media := media[..i] + media[i + 1..];
    }
  }
}
