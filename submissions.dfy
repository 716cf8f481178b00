/**
 * The in-memory submission store and its approval state machine
 * (server/routes/submissions.ts).
 *
 * A submission is created `Pending` and is reviewed at most once, to `Approved` or
 * `Rejected`; only its submitter may edit it, and only while it is pending. The pure
 * functions below give each handler's reply and the store it leaves behind; the class
 * `SubmissionStore` holds the module-level array and performs each handler as a
 * find / check / mutate sequence that is proved to agree with them.
 */
module Submissions {
  import opened Wrappers
  import Seqs
  import opened JsonValues

  datatype Status = Pending | Approved | Rejected

  /** The free-form JSON `data` object of a submission; no handler looks inside it. */
  type Payload = Json

  datatype Submission = Submission(
    id: string,
    title: string,
    description: string,
    dataType: string,
    submittedBy: string,
    submittedAt: string,
    status: Status,
    reviewedBy: Option<string>,
    reviewedAt: Option<string>,
    reviewNotes: Option<string>,
    data: Payload,
    attachments: Option<seq<string>>)

  /** The authenticated user that the auth middleware attaches to the request. */
  datatype Caller = Caller(id: string, role: string)

  /** Body of a creation request: everything the client chooses; `dataType` is not checked. */
  datatype NewRequest = NewRequest(
    title: string,
    description: string,
    dataType: string,
    data: Payload,
    attachments: Option<seq<string>>)

  /**
   * Body of an update request. Any field of a submission may be supplied; `Some(v)`
   * means the field is present in the body with value `v`.
   */
  datatype Patch = Patch(
    id: Option<string>,
    title: Option<string>,
    description: Option<string>,
    dataType: Option<string>,
    submittedBy: Option<string>,
    submittedAt: Option<string>,
    status: Option<Status>,
    reviewedBy: Option<Option<string>>,
    reviewedAt: Option<Option<string>>,
    reviewNotes: Option<Option<string>>,
    data: Option<Payload>,
    attachments: Option<Option<seq<string>>>)

  /** A handler's reply together with the store it leaves behind. */
  datatype Step = Step(reply: Reply<Submission>, store: seq<Submission>)

  const ResearcherRole := "researcher"
  const ApproveAction := "approve"

  const NotFoundText := "Submission not found"
  const AlreadyReviewedText := "Submission has already been reviewed"
  const AccessDeniedText := "Access denied"
  const NotOwnerText := "Can only update your own submissions"
  const NotPendingText := "Cannot update reviewed submissions"

  /** The two records the store starts with. */
  function Seed(): seq<Submission> {
    [ Submission("1", "Coral Reef Species Observation",
        "New species identification in Great Barrier Reef section A-7",
        "species", "2", "2024-03-15T10:30:00.000Z", Pending, None, None, None,
        Object([("species", Str("Acropora cervicornis")),
          ("location", Object([("lat", Number(-16.2839)), ("lng", Number(145.7781))])),
          ("depth", Number(15.0)), ("temperature", Number(26.5)),
          ("observations", Str("Healthy colony with active polyp extension"))]),
        Some(["/uploads/coral-sample-1.jpg", "/uploads/coral-sample-2.jpg"])),
      Submission("2", "Water Quality Sensor Data",
        "Monthly pH and salinity measurements from monitoring station B-12",
        "sensor", "3", "2024-03-10T14:15:00.000Z", Approved,
        Some("1"), Some("2024-03-11T09:00:00.000Z"), Some("Data validated and meets quality standards"),
        Object([("stationId", Str("B-12")),
          ("measurements", Array([
            Object([("date", Str("2024-03-01")), ("pH", Number(8.1)), ("salinity", Number(35.2)), ("temperature", Number(24.8))]),
            Object([("date", Str("2024-03-02")), ("pH", Number(8.0)), ("salinity", Number(35.1)), ("temperature", Number(25.1))])]))]),
        None) ]
  }

  // ---------------------------------------------------------------------------
  // Reading the store

  /** Whether `caller` may see `s`: non-researchers see everything, researchers their own and the approved ones. */
  predicate VisibleTo(caller: Caller, s: Submission) {
    caller.role != ResearcherRole || s.submittedBy == caller.id || s.status == Approved
  }

  function OwnOrApproved(caller: Caller): Submission -> bool {
    (s: Submission) => s.submittedBy == caller.id || s.status == Approved
  }

  function IsPending(): Submission -> bool {
    (s: Submission) => s.status == Pending
  }

  function HasId(id: string): Submission -> bool {
    (s: Submission) => s.id == id
  }

  /** `submissions.find(s => s.id === id)`, as a position. */
  function IndexOf(store: seq<Submission>, id: string): Option<nat> {
    Seqs.FindIndex(store, HasId(id))
  }

  /** The listing of `getSubmissions`: exactly the submissions visible to the caller. */
  function Listing(store: seq<Submission>, caller: Caller): (r: seq<Submission>)
    ensures forall s :: s in r <==> s in store && VisibleTo(caller, s)
    ensures caller.role != ResearcherRole ==> r == store
  {
    if caller.role == ResearcherRole then
      Seqs.FilterMembership(store, OwnOrApproved(caller));
      Seqs.Filter(store, OwnOrApproved(caller))
    else
      store
  }

  /** The listing keeps every visible occurrence and drops every invisible one. */
  lemma ListingCount(store: seq<Submission>, caller: Caller, s: Submission)
    ensures multiset(Listing(store, caller))[s] == if VisibleTo(caller, s) then multiset(store)[s] else 0
  {
    if caller.role == ResearcherRole {
      Seqs.FilterCount(store, OwnOrApproved(caller), s);
    }
  }

  /** The listing is in store order: listing a concatenation lists each part in turn. */
  lemma ListingInStoreOrder(a: seq<Submission>, b: seq<Submission>, caller: Caller)
    ensures Listing(a + b, caller) == Listing(a, caller) + Listing(b, caller)
  {
    if caller.role == ResearcherRole {
      Seqs.FilterConcat(a, b, OwnOrApproved(caller));
    }
  }

  /** Confidentiality: a researcher never receives another user's pending or rejected submission. */
  lemma ListingConfidential(store: seq<Submission>, caller: Caller, s: Submission)
    requires caller.role == ResearcherRole
    requires s in Listing(store, caller)
    ensures s.submittedBy == caller.id || s.status == Approved
  {
  }

  /** `getPendingSubmissions`: exactly the pending submissions. */
  function PendingOf(store: seq<Submission>): (r: seq<Submission>)
    ensures forall s :: s in r <==> s in store && s.status == Pending
  {
    Seqs.FilterMembership(store, IsPending());
    Seqs.Filter(store, IsPending())
  }

  /** The pending listing keeps every occurrence of a pending submission, in store order. */
  lemma PendingCountAndOrder(a: seq<Submission>, b: seq<Submission>, s: Submission)
    ensures multiset(PendingOf(a))[s] == if s.status == Pending then multiset(a)[s] else 0
    ensures PendingOf(a + b) == PendingOf(a) + PendingOf(b)
  {
    Seqs.FilterCount(a, IsPending(), s);
    Seqs.FilterConcat(a, b, IsPending());
  }

  /** `getSubmissionById`: 404 for an unknown id, 403 when the first match is not visible to the caller. */
  function GetById(store: seq<Submission>, caller: Caller, id: string): (r: Reply<Submission>)
    ensures r.Ok? <==> IndexOf(store, id).Some? && VisibleTo(caller, store[IndexOf(store, id).value])
    ensures r.Ok? ==> r.value == store[IndexOf(store, id).value] && r.value.id == id
    ensures r.Fail? && r.status == NotFound <==> forall s :: s in store ==> s.id != id
    ensures r.Fail? ==> r.status == NotFound || r.status == Forbidden
  {
    match IndexOf(store, id)
    case None =>
      assert forall s :: s in store ==> !HasId(id)(s);
      Fail(NotFound, NotFoundText)
    case Some(i) =>
      var s := store[i];
      if caller.role == ResearcherRole && s.submittedBy != caller.id && s.status != Approved then
        Fail(Forbidden, AccessDeniedText)
      else
        Ok(s)
  }

  /** No two records share an id. The handlers do not enforce this: ids come from the clock. */
  predicate UniqueIds(store: seq<Submission>) {
    forall i, j :: 0 <= i < j < |store| ==> store[i].id != store[j].id
  }

  /** With unique ids, the detail view succeeds exactly for the ids that the caller's listing shows. */
  lemma GetByIdAgreesWithListing(store: seq<Submission>, caller: Caller, id: string)
    requires UniqueIds(store)
    ensures GetById(store, caller, id).Ok? <==> exists s :: s in Listing(store, caller) && s.id == id
  {
    if exists s :: s in Listing(store, caller) && s.id == id {
      var s :| s in Listing(store, caller) && s.id == id;
      var k :| 0 <= k < |store| && store[k] == s;
      var i := IndexOf(store, id).value;
      assert store[i].id == id;
      assert i == k;
    }
  }

  // ---------------------------------------------------------------------------
  // Creating

  /** The record `createSubmission` builds: pending, owned by the caller, fields copied from the body. */
  function NewSubmission(caller: Caller, req: NewRequest, freshId: string, now: string): Submission {
    Submission(freshId, req.title, req.description, req.dataType, caller.id, now, Pending,
      None, None, None, req.data, req.attachments)
  }

  /** Round trip: a submission created under a fresh id is read back, payload included, by its creator. */
  lemma CreateThenGet(store: seq<Submission>, caller: Caller, req: NewRequest, freshId: string, now: string)
    requires forall s :: s in store ==> s.id != freshId
    ensures var s := NewSubmission(caller, req, freshId, now);
      GetById(store + [s], caller, freshId) == Ok(s) && GetById(store + [s], caller, freshId).value.data == req.data
  {
    var s := NewSubmission(caller, req, freshId, now);
    Seqs.FindAppend(store, s, HasId(freshId));
  }

  /** A new submission is hidden from other researchers until it is approved. */
  lemma NewSubmissionHidden(store: seq<Submission>, caller: Caller, other: Caller, req: NewRequest, freshId: string, now: string)
    requires other.role == ResearcherRole && other.id != caller.id
    ensures NewSubmission(caller, req, freshId, now) !in Listing(store + [NewSubmission(caller, req, freshId, now)], other)
  {
  }

  // ---------------------------------------------------------------------------
  // Reviewing

  /** The record after a successful review: any action other than "approve" rejects. */
  function Reviewed(s: Submission, reviewer: Caller, action: string, notes: Option<string>, now: string): Submission {
    s.(status := if action == ApproveAction then Approved else Rejected,
       reviewedBy := Some(reviewer.id), reviewedAt := Some(now), reviewNotes := notes)
  }

  /** `reviewSubmission`: 404 for an unknown id, 400 unless the first match is pending, otherwise the terminal transition. */
  function ApplyReview(store: seq<Submission>, reviewer: Caller, id: string, action: string, notes: Option<string>, now: string): (r: Step)
    ensures r.reply.Fail? ==> r.store == store
    ensures r.reply.Fail? && r.reply.status == NotFound <==> forall s :: s in store ==> s.id != id
    ensures r.reply.Ok? <==> IndexOf(store, id).Some? && store[IndexOf(store, id).value].status == Pending
    ensures IndexOf(store, id).Some? && store[IndexOf(store, id).value].status != Pending ==>
      r.reply == Fail(BadRequest, AlreadyReviewedText)
    ensures r.reply.Ok? ==> var i := IndexOf(store, id).value;
      && r.store == store[i := r.reply.value]
      && r.reply.value.id == id
      && (r.reply.value.status == Approved <==> action == ApproveAction)
      && r.reply.value.status != Pending
      && r.reply.value.reviewedBy == Some(reviewer.id)
      && r.reply.value.reviewedAt == Some(now)
      && r.reply.value.reviewNotes == notes
      && r.reply.value.(status := Pending, reviewedBy := store[i].reviewedBy, reviewedAt := store[i].reviewedAt,
                        reviewNotes := store[i].reviewNotes) == store[i]
  {
    match IndexOf(store, id)
    case None =>
      assert forall s :: s in store ==> !HasId(id)(s);
      Step(Fail(NotFound, NotFoundText), store)
    case Some(i) =>
      if store[i].status != Pending then
        Step(Fail(BadRequest, AlreadyReviewedText), store)
      else
        var s := Reviewed(store[i], reviewer, action, notes, now);
        Step(Ok(s), store[i := s])
  }

  // ---------------------------------------------------------------------------
  // Updating

  /** `Object.assign(submission, {...updates, id, submittedBy, submittedAt, status})`. */
  function Patched(s: Submission, p: Patch): Submission {
    Submission(s.id, p.title.GetOr(s.title), p.description.GetOr(s.description),
      p.dataType.GetOr(s.dataType), s.submittedBy, s.submittedAt, s.status,
      p.reviewedBy.GetOr(s.reviewedBy), p.reviewedAt.GetOr(s.reviewedAt),
      p.reviewNotes.GetOr(s.reviewNotes), p.data.GetOr(s.data), p.attachments.GetOr(s.attachments))
  }

  /** `updateSubmission`: 404 unknown, then 403 unless the caller submitted it, then 400 unless pending. */
  function ApplyUpdate(store: seq<Submission>, caller: Caller, id: string, patch: Patch): (r: Step)
    ensures r.reply.Fail? ==> r.store == store
    ensures r.reply.Fail? && r.reply.status == NotFound <==> forall s :: s in store ==> s.id != id
    ensures r.reply.Fail? && r.reply.status == Forbidden <==>
      IndexOf(store, id).Some? && store[IndexOf(store, id).value].submittedBy != caller.id
    ensures r.reply.Ok? <==>
      && IndexOf(store, id).Some?
      && store[IndexOf(store, id).value].submittedBy == caller.id
      && store[IndexOf(store, id).value].status == Pending
    ensures (IndexOf(store, id).Some? && store[IndexOf(store, id).value].submittedBy == caller.id
             && store[IndexOf(store, id).value].status != Pending) ==>
      r.reply == Fail(BadRequest, NotPendingText)
    ensures r.reply.Ok? ==> r.store == store[IndexOf(store, id).value := r.reply.value]
  {
    match IndexOf(store, id)
    case None =>
      assert forall s :: s in store ==> !HasId(id)(s);
      Step(Fail(NotFound, NotFoundText), store)
    case Some(i) =>
      if store[i].submittedBy != caller.id then
        Step(Fail(Forbidden, NotOwnerText), store)
      else if store[i].status != Pending then
        Step(Fail(BadRequest, NotPendingText), store)
      else
        var s := Patched(store[i], patch);
        Step(Ok(s), store[i := s])
  }

  /**
   * A successful update pins id, submitter, submission time and status, whatever the body says;
   * every other field, reviewer and review time included, takes the supplied value or stays.
   */
  lemma UpdatePinsIdentity(store: seq<Submission>, caller: Caller, id: string, patch: Patch)
    requires ApplyUpdate(store, caller, id, patch).reply.Ok?
    ensures var old_ := store[IndexOf(store, id).value];
      var new_ := ApplyUpdate(store, caller, id, patch).reply.value;
      && new_.id == old_.id == id
      && new_.submittedBy == old_.submittedBy == caller.id
      && new_.submittedAt == old_.submittedAt
      && new_.status == old_.status == Pending
      && new_.title == (if patch.title.Some? then patch.title.value else old_.title)
      && new_.description == (if patch.description.Some? then patch.description.value else old_.description)
      && new_.dataType == (if patch.dataType.Some? then patch.dataType.value else old_.dataType)
      && new_.reviewedBy == (if patch.reviewedBy.Some? then patch.reviewedBy.value else old_.reviewedBy)
      && new_.reviewedAt == (if patch.reviewedAt.Some? then patch.reviewedAt.value else old_.reviewedAt)
      && new_.reviewNotes == (if patch.reviewNotes.Some? then patch.reviewNotes.value else old_.reviewNotes)
      && new_.data == (if patch.data.Some? then patch.data.value else old_.data)
      && new_.attachments == (if patch.attachments.Some? then patch.attachments.value else old_.attachments)
  {
  }

  // ---------------------------------------------------------------------------
  // The state machine

  /** A status may stay as it is or leave `Pending`; nothing leaves a terminal status. */
  predicate Transition(before: Status, after: Status) {
    before == after || before == Pending
  }

  /**
   * `after` is a legal successor of `before`: records keep their place, id, submitter and
   * submission time, and a record that is no longer pending never changes again.
   */
  predicate StepsForward(before: seq<Submission>, after: seq<Submission>) {
    && |before| <= |after|
    && (forall i :: 0 <= i < |before| ==>
          && after[i].id == before[i].id
          && after[i].submittedBy == before[i].submittedBy
          && after[i].submittedAt == before[i].submittedAt
          && Transition(before[i].status, after[i].status)
          && (before[i].status != Pending ==> after[i] == before[i]))
  }

  lemma {:induction false} StepsForwardTransitive(a: seq<Submission>, b: seq<Submission>, c: seq<Submission>)
    requires StepsForward(a, b) && StepsForward(b, c)
    ensures StepsForward(a, c)
  {
    forall i | 0 <= i < |a|
      ensures Transition(a[i].status, c[i].status)
      ensures a[i].status != Pending ==> c[i] == a[i]
    {
      assert Transition(a[i].status, b[i].status) && Transition(b[i].status, c[i].status);
    }
  }

  lemma CreateStepsForward(store: seq<Submission>, caller: Caller, req: NewRequest, freshId: string, now: string)
    ensures StepsForward(store, store + [NewSubmission(caller, req, freshId, now)])
  {
  }

  lemma ReviewStepsForward(store: seq<Submission>, reviewer: Caller, id: string, action: string, notes: Option<string>, now: string)
    ensures StepsForward(store, ApplyReview(store, reviewer, id, action, notes, now).store)
  {
  }

  lemma UpdateStepsForward(store: seq<Submission>, caller: Caller, id: string, patch: Patch)
    ensures StepsForward(store, ApplyUpdate(store, caller, id, patch).store)
  {
  }

  /**
   * At most one review: once the first record with `id` has been reviewed, every later
   * review of `id`, after any legal sequence of creations, updates and reviews, fails with
   * 400 and leaves the store (so status, reviewer and notes) unchanged.
   */
  lemma {:induction false} AtMostOnceReview(store: seq<Submission>, reviewer: Caller, id: string, action: string,
                                            notes: Option<string>, now: string, later: seq<Submission>,
                                            reviewer2: Caller, action2: string, notes2: Option<string>, now2: string)
    requires ApplyReview(store, reviewer, id, action, notes, now).reply.Ok?
    requires StepsForward(ApplyReview(store, reviewer, id, action, notes, now).store, later)
    ensures ApplyReview(later, reviewer2, id, action2, notes2, now2) == Step(Fail(BadRequest, AlreadyReviewedText), later)
  {
    var first := ApplyReview(store, reviewer, id, action, notes, now);
    var i := IndexOf(store, id).value;
    var mid := first.store;
    assert mid[i].id == id && mid[i].status != Pending;
    assert forall j :: 0 <= j < i ==> mid[j].id == store[j].id != id;
    assert later[i] == mid[i];
    assert forall j :: 0 <= j < i ==> later[j].id != id;
    assert IndexOf(later, id) == Some(i);
  }

  /** Updates never touch a reviewed submission: they fail and leave the store unchanged. */
  lemma UpdateCannotReopen(store: seq<Submission>, caller: Caller, id: string, patch: Patch)
    requires IndexOf(store, id).Some? && store[IndexOf(store, id).value].status != Pending
    ensures ApplyUpdate(store, caller, id, patch).reply.Fail?
    ensures ApplyUpdate(store, caller, id, patch).reply.status in {Forbidden, BadRequest}
    ensures ApplyUpdate(store, caller, id, patch).store == store
  {
  }

  /** Every reviewed record names its reviewer and review time. */
  predicate ReviewsRecorded(store: seq<Submission>) {
    forall i :: 0 <= i < |store| && store[i].status != Pending ==> store[i].reviewedBy.Some? && store[i].reviewedAt.Some?
  }

  lemma SeedRecorded()
    ensures ReviewsRecorded(Seed())
  {
    var s := Seed();
    assert |s| == 2 && s[0].status == Pending && s[1].reviewedBy.Some? && s[1].reviewedAt.Some?;
  }

  lemma ReviewKeepsRecords(store: seq<Submission>, reviewer: Caller, id: string, action: string, notes: Option<string>, now: string)
    requires ReviewsRecorded(store)
    ensures ReviewsRecorded(ApplyReview(store, reviewer, id, action, notes, now).store)
  {
  }

  lemma UpdateKeepsRecords(store: seq<Submission>, caller: Caller, id: string, patch: Patch)
    requires ReviewsRecorded(store)
    ensures ReviewsRecorded(ApplyUpdate(store, caller, id, patch).store)
  {
  }

  // ---------------------------------------------------------------------------
  // The module-level `submissions` array and its handlers

  class SubmissionStore {
    var submissions: seq<Submission>

    ghost predicate Valid()
      reads this
    {
      ReviewsRecorded(submissions)
    }

    constructor ()
      ensures Valid() && submissions == Seed()
    {
      submissions := Seed();
      SeedRecorded();
    }

    method GetSubmissions(caller: Caller) returns (r: seq<Submission>)
      ensures r == Listing(submissions, caller)
    {
      r := submissions;
      if caller.role == ResearcherRole {
        r := Seqs.Filter(submissions, OwnOrApproved(caller));
      }
    }

    method GetPendingSubmissions() returns (r: seq<Submission>)
      ensures r == PendingOf(submissions)
    {
      r := Seqs.Filter(submissions, IsPending());
    }

    method GetSubmissionById(caller: Caller, id: string) returns (r: Reply<Submission>)
      ensures r == GetById(submissions, caller, id)
    {
      var idx := IndexOf(submissions, id);
      if idx.None? {
        return Fail(NotFound, NotFoundText);
      }
      var s := submissions[idx.value];
      if caller.role == ResearcherRole && s.submittedBy != caller.id && s.status != Approved {
        return Fail(Forbidden, AccessDeniedText);
      }
      r := Ok(s);
    }

    method CreateSubmission(caller: Caller, req: NewRequest, freshId: string, now: string) returns (s: Submission)
      requires Valid()
      modifies this
      ensures Valid()
      ensures s == NewSubmission(caller, req, freshId, now)
      ensures submissions == old(submissions) + [s]
      ensures StepsForward(old(submissions), submissions)
    {
      s := NewSubmission(caller, req, freshId, now);
      CreateStepsForward(submissions, caller, req, freshId, now);
      submissions := submissions + [s];
    }

    method ReviewSubmission(reviewer: Caller, id: string, action: string, notes: Option<string>, now: string)
      returns (r: Reply<Submission>)
      requires Valid()
      modifies this
      ensures Valid()
      ensures Step(r, submissions) == ApplyReview(old(submissions), reviewer, id, action, notes, now)
      ensures StepsForward(old(submissions), submissions)
    {
      ReviewStepsForward(submissions, reviewer, id, action, notes, now);
      ReviewKeepsRecords(submissions, reviewer, id, action, notes, now);
      var idx := IndexOf(submissions, id);
      if idx.None? {
        return Fail(NotFound, NotFoundText);
      }
      var i := idx.value;
      if submissions[i].status != Pending {
        return Fail(BadRequest, AlreadyReviewedText);
      }
      var s := submissions[i];
      s := s.(status := if action == ApproveAction then Approved else Rejected);
      s := s.(reviewedBy := Some(reviewer.id));
      s := s.(reviewedAt := Some(now));
      s := s.(reviewNotes := notes);
      submissions := submissions[i := s];
      r := Ok(s);
    }

    method UpdateSubmission(caller: Caller, id: string, patch: Patch) returns (r: Reply<Submission>)
      requires Valid()
      modifies this
      ensures Valid()
      ensures Step(r, submissions) == ApplyUpdate(old(submissions), caller, id, patch)
      ensures StepsForward(old(submissions), submissions)
    {
      UpdateStepsForward(submissions, caller, id, patch);
      UpdateKeepsRecords(submissions, caller, id, patch);
      var idx := IndexOf(submissions, id);
      if idx.None? {
        return Fail(NotFound, NotFoundText);
      }
      var i := idx.value;
      if submissions[i].submittedBy != caller.id {
        return Fail(Forbidden, NotOwnerText);
      }
      if submissions[i].status != Pending {
        return Fail(BadRequest, NotPendingText);
      }
      var s := Patched(submissions[i], patch);
      submissions := submissions[i := s];
      r := Ok(s);
    }
  }
}
