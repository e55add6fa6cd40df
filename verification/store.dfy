/** What reconciliation does to the drafts kept by the service, under an
    assumed service behaviour that neither script states: the list reply
    shows the stored drafts in order with `totalHits` equal to their number;
    a create appends a draft under a fresh id; an update replaces the
    content of the draft with the payload's `draftId`. Under that
    assumption kd.py's `create_or_update_draft` keeps a single slot: a store
    with no drafts gains exactly one, a non-empty store keeps its size and
    has its first draft overwritten, and running the command again updates
    that same draft. */
module DraftStore {
  import opened Wrappers
  import opened Payload
  import opened Reconcile

  datatype StoredDraft = StoredDraft(draftId: string, content: DraftPayload)

  predicate UniqueIds(store: seq<StoredDraft>) {
    forall i, j :: 0 <= i < j < |store| ==> store[i].draftId != store[j].draftId
  }

  function Summaries(store: seq<StoredDraft>): (r: seq<DraftSummary>)
    ensures |r| == |store|
    ensures forall i :: 0 <= i < |r| ==> r[i].draftId == store[i].draftId
  {
    seq(|store|, i requires 0 <= i < |store| => DraftSummary(store[i].draftId))
  }

  /** The 200 reply the service gives to a list request. */
  function Listing(store: seq<StoredDraft>): ListResponse {
    ListResponse(200, |store|, Summaries(store))
  }

  /** The content of every draft whose id is `id` replaced by `p`. */
  function Replace(store: seq<StoredDraft>, id: string, p: DraftPayload): (r: seq<StoredDraft>)
    ensures |r| == |store|
    ensures forall i :: 0 <= i < |r| ==> r[i].draftId == store[i].draftId
    ensures forall i :: 0 <= i < |r| ==>
              r[i].content == (if store[i].draftId == id then p else store[i].content)
  {
    seq(|store|, i requires 0 <= i < |store| =>
      if store[i].draftId == id then StoredDraft(id, p) else store[i])
  }

  /** The store after the service handled `req`; `freshId` is the id a create is given. */
  function Apply(store: seq<StoredDraft>, req: Request, freshId: string): seq<StoredDraft> {
    match req
    case CreateDraft(p) => store + [StoredDraft(freshId, p)]
    case UpdateDraft(p) => if p.draftId.Some? then Replace(store, p.draftId.value, p) else store
    case _ => store
  }

  function ApplyAll(store: seq<StoredDraft>, reqs: seq<Request>, freshId: string): seq<StoredDraft>
    decreases |reqs|
  {
    if |reqs| == 0 then store else ApplyAll(Apply(store, reqs[0], freshId), reqs[1..], freshId)
  }

  lemma ApplyTwo(store: seq<StoredDraft>, a: Request, b: Request, freshId: string)
    ensures ApplyAll(store, [a, b], freshId) == Apply(Apply(store, a, freshId), b, freshId)
  {
    var s1 := Apply(store, a, freshId);
    assert [a, b][1..] == [b];
    assert ApplyAll(store, [a, b], freshId) == ApplyAll(s1, [b], freshId);
    assert [b][1..] == [];
    assert ApplyAll(s1, [b], freshId) == ApplyAll(Apply(s1, b, freshId), [], freshId);
  }

  /** The store after kd.py's `create_or_update_draft(p)` ran against it. */
  function AfterReconcile(config: Config, store: seq<StoredDraft>, p: DraftPayload, freshId: string): (r: seq<StoredDraft>)
    requires |config.childIds| > 0 && UniqueIds(store)
    ensures |r| == (if |store| == 0 then 1 else |store|)
    ensures UniqueIds(r)
    ensures |store| == 0 ==> r == [StoredDraft(freshId, p)]
    ensures |store| > 0 ==> r[0] == StoredDraft(store[0].draftId, WithDraftId(p, store[0].draftId))
    ensures forall i :: 1 <= i < |store| ==> r[i] == store[i]
  {
    var run := KdCreateOrUpdate(config, Listing(store), Some(p));
    if |store| == 0 then
      assert run.issued == [ListDrafts(config.childIds[0], config.userToken), CreateDraft(p)];
      ApplyTwo(store, run.issued[0], run.issued[1], freshId);
      ApplyAll(store, run.issued, freshId)
    else
      var id := store[0].draftId;
      assert run.issued == [ListDrafts(config.childIds[0], config.userToken), UpdateDraft(WithDraftId(p, id))];
      ApplyTwo(store, run.issued[0], run.issued[1], freshId);
      assert ApplyAll(store, run.issued, freshId) == Replace(store, id, WithDraftId(p, id));
      ApplyAll(store, run.issued, freshId)
  }

  /** Running the command twice, with any two payloads, creates at most one
      draft in all, and the second run overwrites the draft the first one
      created or updated. */
  lemma SecondRunUpdatesSameDraft(config: Config, store: seq<StoredDraft>,
                                  p1: DraftPayload, p2: DraftPayload,
                                  fresh1: string, fresh2: string)
    requires |config.childIds| > 0 && UniqueIds(store)
    ensures var once := AfterReconcile(config, store, p1, fresh1);
            var twice := AfterReconcile(config, once, p2, fresh2);
            && |twice| == |once| == (if |store| == 0 then 1 else |store|)
            && twice[0].draftId == once[0].draftId
            && twice[0].content == WithDraftId(p2, once[0].draftId)
  {
    var once := AfterReconcile(config, store, p1, fresh1);
    assert |once| > 0;
  }
}
