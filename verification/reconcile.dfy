/** Draft reconciliation: `create_or_update_draft` and `list_drafts` of both
    scripts, with the HTTP layer taken out. The reply to the list request is
    an input; the result is the sequence of requests the call issues, in
    order, together with the exception it ends with, if any. Replies to the
    detail, create and update requests are only logged by the scripts, so
    they do not influence what is issued. */
module Reconcile {
  import opened Wrappers
  import opened Faults
  import opened Payload

  datatype DraftSummary = DraftSummary(draftId: string)

  /** The reply to `diary/draft/list`; `totalHits` and `drafts` are only read on status 200. */
  datatype ListResponse = ListResponse(status: int, totalHits: int, drafts: seq<DraftSummary>)

  /** Every request the modelled operations issue. The album request belongs to
      kd.py's `draft --create` command rather than to reconciliation; it shares
      this type so that the command's run is one sequence of requests. */
  datatype Request =
    | ListDrafts(childId: string, userToken: string)                   // diary/draft/list
    | DraftDetail(childId: string, userToken: string, draftId: string) // diary/draft/detail
    | CreateDraft(payload: DraftPayload)                               // diary/draft/post
    | UpdateDraft(payload: DraftPayload)                               // diary/draft/update
    | ListPhotos(userToken: string)                                    // album/photo/all

  datatype Run = Run(issued: seq<Request>, fault: Option<Fault>)

  predicate IsWrite(r: Request) {
    r.CreateDraft? || r.UpdateDraft?
  }

  /** The create and update requests among `reqs`, in order. */
  function Writes(reqs: seq<Request>): (w: seq<Request>)
    ensures |w| <= |reqs|
    ensures forall i :: 0 <= i < |w| ==> IsWrite(w[i]) && w[i] in reqs
    ensures (forall i :: 0 <= i < |reqs| ==> !IsWrite(reqs[i])) ==> w == []
  {
    if |reqs| == 0 then []
    else (if IsWrite(reqs[0]) then [reqs[0]] else []) + Writes(reqs[1..])
  }

  lemma {:induction false} WritesConcat(a: seq<Request>, b: seq<Request>)
    ensures Writes(a + b) == Writes(a) + Writes(b)
  {
    if |a| == 0 {
      assert a + b == b;
    } else {
      var head := if IsWrite(a[0]) then [a[0]] else [];
      assert (a + b)[0] == a[0];
      assert (a + b)[1..] == a[1..] + b;
      WritesConcat(a[1..], b);
      assert Writes(a + b) == head + (Writes(a[1..]) + Writes(b));
    }
  }

  lemma {:induction false} WritesOfWrites(writes: seq<Request>)
    requires forall i :: 0 <= i < |writes| ==> IsWrite(writes[i])
    ensures Writes(writes) == writes
  {
    if |writes| > 0 {
      WritesOfWrites(writes[1..]);
      assert writes == [writes[0]] + writes[1..];
    }
  }

  /** A run that reads first and then writes has exactly those writes. */
  lemma WritesAfterReads(queries: seq<Request>, writes: seq<Request>)
    requires forall i :: 0 <= i < |queries| ==> !IsWrite(queries[i])
    requires forall i :: 0 <= i < |writes| ==> IsWrite(writes[i])
    ensures Writes(queries + writes) == writes
  {
    WritesConcat(queries, writes);
    WritesOfWrites(writes);
  }

  /** The payload an update carries: the caller's payload with `draftId` set. */
  function WithDraftId(p: DraftPayload, id: string): (q: DraftPayload)
    ensures q.draftId == Some(id)
    ensures q.(draftId := p.draftId) == p
  {
    p.(draftId := Some(id))
  }

  /** The first listed draft, the only one either script ever looks at. */
  function FirstDraftId(list: ListResponse): string
    requires |list.drafts| > 0
  {
    list.drafts[0].draftId
  }

  // kd.py

  /** kd.py's `KidsDiaryCLI.create_or_update_draft`. */
  function KdCreateOrUpdate(config: Config, list: ListResponse, payload: Option<DraftPayload>): (r: Run)
    ensures |config.childIds| == 0 ==> r == Run([], Some(NoChildId))
    ensures |config.childIds| > 0 ==>
              |r.issued| >= 1 && r.issued[0] == ListDrafts(config.childIds[0], config.userToken)
    ensures |r.issued| <= 2 && forall i :: 1 <= i < |r.issued| ==> IsWrite(r.issued[i])
    ensures |config.childIds| > 0 && (list.status != 200 || payload.None?) ==>
              r == Run([ListDrafts(config.childIds[0], config.userToken)], None)
    ensures |Writes(r.issued)| <= 1
    ensures |Writes(r.issued)| == 1 <==>
              |config.childIds| > 0 && payload.Some? && list.status == 200
              && (list.totalHits <= 0 || |list.drafts| > 0)
    ensures forall i :: 0 <= i < |r.issued| && r.issued[i].UpdateDraft? ==>
              && payload.Some? && list.status == 200 && list.totalHits > 0 && |list.drafts| > 0
              && r.issued[i].payload == WithDraftId(payload.value, FirstDraftId(list))
    ensures forall i :: 0 <= i < |r.issued| && r.issued[i].CreateDraft? ==>
              && payload.Some? && list.status == 200 && list.totalHits <= 0
              && r.issued[i].payload == payload.value
    ensures forall i :: 0 <= i < |r.issued| ==> !r.issued[i].DraftDetail?
    ensures r.fault.Some? <==>
              |config.childIds| == 0
              || (payload.Some? && list.status == 200 && list.totalHits > 0 && |list.drafts| == 0)
    ensures |config.childIds| > 0 && r.fault.Some? ==> r.fault == Some(NoFirstDraft)
  {
    if |config.childIds| == 0 then Run([], Some(NoChildId))
    else
      var listing := ListDrafts(config.childIds[0], config.userToken);
      if list.status != 200 || payload.None? then Run([listing], None)
      else if list.totalHits > 0 then
        if |list.drafts| == 0 then Run([listing], Some(NoFirstDraft))
        else
          var update := UpdateDraft(WithDraftId(payload.value, FirstDraftId(list)));
          WritesAfterReads([listing], [update]);
          Run([listing] + [update], None)
      else
        WritesAfterReads([listing], [CreateDraft(payload.value)]);
        Run([listing] + [CreateDraft(payload.value)], None)
  }

  /** One detail request per listed draft, in list order. */
  function Details(childId: string, userToken: string, drafts: seq<DraftSummary>): (reqs: seq<Request>)
    ensures |reqs| == |drafts|
    ensures forall i :: 0 <= i < |reqs| ==> reqs[i] == DraftDetail(childId, userToken, drafts[i].draftId)
  {
    if |drafts| == 0 then []
    else [DraftDetail(childId, userToken, drafts[0].draftId)] + Details(childId, userToken, drafts[1..])
  }

  /** kd.py's `KidsDiaryCLI.list_drafts`: the list request, then on a 200 reply
      with hits one detail request for every listed draft. */
  function KdListDrafts(config: Config, list: ListResponse): (r: Run)
    ensures |config.childIds| == 0 ==> r == Run([], Some(NoChildId))
    ensures |config.childIds| > 0 ==>
              && r.fault == None
              && |r.issued| == 1 + (if list.status == 200 && list.totalHits > 0 then |list.drafts| else 0)
              && r.issued[0] == ListDrafts(config.childIds[0], config.userToken)
              && forall i :: 1 <= i < |r.issued| ==>
                   r.issued[i] == DraftDetail(config.childIds[0], config.userToken, list.drafts[i - 1].draftId)
    ensures Writes(r.issued) == []
  {
    if |config.childIds| == 0 then Run([], Some(NoChildId))
    else
      var child, token := config.childIds[0], config.userToken;
      var details := if list.status == 200 && list.totalHits > 0 then Details(child, token, list.drafts) else [];
      Run([ListDrafts(child, token)] + details, None)
  }

  // kidsdiary.py

  /** kidsdiary.py's `KidsDiaryDraftHelper.create_or_update_draft`: like kd.py's,
      but with hits it always fetches the first draft's detail first, also
      when there is nothing to write. */
  function HelperCreateOrUpdate(helper: Helper, list: ListResponse, payload: Option<DraftPayload>): (r: Run)
    ensures r.issued == [ListDrafts(helper.childId, helper.token)]
                        + (if list.status == 200 && list.totalHits > 0 && |list.drafts| > 0
                           then [DraftDetail(helper.childId, helper.token, FirstDraftId(list))]
                           else [])
                        + Writes(r.issued)
    ensures list.status != 200 ==> r == Run([ListDrafts(helper.childId, helper.token)], None)
    ensures |Writes(r.issued)| <= 1
    ensures |Writes(r.issued)| == 1 <==>
              payload.Some? && list.status == 200 && (list.totalHits <= 0 || |list.drafts| > 0)
    ensures forall i :: 0 <= i < |r.issued| && r.issued[i].UpdateDraft? ==>
              && payload.Some? && list.status == 200 && list.totalHits > 0 && |list.drafts| > 0
              && r.issued[i].payload == WithDraftId(payload.value, FirstDraftId(list))
    ensures forall i :: 0 <= i < |r.issued| && r.issued[i].CreateDraft? ==>
              && payload.Some? && list.status == 200 && list.totalHits <= 0
              && r.issued[i].payload == payload.value
    ensures (exists i :: 0 <= i < |r.issued| && r.issued[i].DraftDetail?) <==>
              list.status == 200 && list.totalHits > 0 && |list.drafts| > 0
    ensures forall i :: 0 <= i < |r.issued| && r.issued[i].DraftDetail? ==>
              && |list.drafts| > 0
              && r.issued[i] == DraftDetail(helper.childId, helper.token, FirstDraftId(list))
    ensures r.fault.Some? <==> list.status == 200 && list.totalHits > 0 && |list.drafts| == 0
    ensures r.fault.Some? ==> r.fault == Some(NoFirstDraft)
  {
    var listing := ListDrafts(helper.childId, helper.token);
    if list.status != 200 then Run([listing], None)
    else if list.totalHits > 0 then
      if |list.drafts| == 0 then Run([listing], Some(NoFirstDraft))
      else
        var id := FirstDraftId(list);
        var queries := [listing, DraftDetail(helper.childId, helper.token, id)];
        var writes := if payload.None? then [] else [UpdateDraft(WithDraftId(payload.value, id))];
        WritesAfterReads(queries, writes);
        Run(queries + writes, None)
    else
      var writes := if payload.None? then [] else [CreateDraft(payload.value)];
      WritesAfterReads([listing], writes);
      Run([listing] + writes, None)
  }

  /** kidsdiary.py's `list_drafts`, which is `create_or_update_draft(None)`:
      it never writes and fetches at most the first draft's detail. */
  function HelperListDrafts(helper: Helper, list: ListResponse): (r: Run)
    ensures Writes(r.issued) == []
    ensures 1 <= |r.issued| <= 2
    ensures r.issued[0] == ListDrafts(helper.childId, helper.token)
    ensures |r.issued| == 2 <==> list.status == 200 && list.totalHits > 0 && |list.drafts| > 0
    ensures |r.issued| == 2 ==>
              |list.drafts| > 0 && r.issued[1] == DraftDetail(helper.childId, helper.token, FirstDraftId(list))
    ensures r.fault.Some? <==> list.status == 200 && list.totalHits > 0 && |list.drafts| == 0
    ensures r.fault.Some? ==> r.fault == Some(NoFirstDraft)
  {
    HelperCreateOrUpdate(helper, list, None)
  }

  // Properties of the decision

  /** kd.py with a draft on the server: exactly one update, carrying the first draft's id. */
  lemma KdUpdatesFirstDraft(config: Config, list: ListResponse, p: DraftPayload)
    requires |config.childIds| > 0
    requires list.status == 200 && list.totalHits > 0 && |list.drafts| > 0
    ensures KdCreateOrUpdate(config, list, Some(p)).fault == None
    ensures Writes(KdCreateOrUpdate(config, list, Some(p)).issued)
            == [UpdateDraft(p.(draftId := Some(list.drafts[0].draftId)))]
  {
  }

  /** kd.py with no draft on the server: exactly one create, with the payload untouched. */
  lemma KdCreatesWhenNoDraft(config: Config, list: ListResponse, p: DraftPayload)
    requires |config.childIds| > 0
    requires list.status == 200 && list.totalHits <= 0
    ensures KdCreateOrUpdate(config, list, Some(p)) ==
            Run([ListDrafts(config.childIds[0], config.userToken), CreateDraft(p)], None)
  {
  }

  /** Only the first listed draft matters: replies that agree on status, hit
      count and first entry lead to the same requests. */
  lemma KdIgnoresLaterDrafts(config: Config, l1: ListResponse, l2: ListResponse,
                             payload: Option<DraftPayload>)
    requires l1.status == l2.status && l1.totalHits == l2.totalHits
    requires |l1.drafts| > 0 && |l2.drafts| > 0 && l1.drafts[0] == l2.drafts[0]
    ensures KdCreateOrUpdate(config, l1, payload) == KdCreateOrUpdate(config, l2, payload)
  {
  }

  lemma HelperIgnoresLaterDrafts(helper: Helper, l1: ListResponse, l2: ListResponse,
                                 payload: Option<DraftPayload>)
    requires l1.status == l2.status && l1.totalHits == l2.totalHits
    requires |l1.drafts| > 0 && |l2.drafts| > 0 && l1.drafts[0] == l2.drafts[0]
    ensures HelperCreateOrUpdate(helper, l1, payload) == HelperCreateOrUpdate(helper, l2, payload)
  {
  }

  /** Once the child id is resolved the two scripts issue the same writes, and
      fail alike whenever there is a payload. Without one they differ: kd.py
      never reads the list entries then, while kidsdiary.py still indexes the
      first one for its detail request. */
  lemma VariantsAgreeOnWrites(config: Config, helper: Helper, list: ListResponse,
                              payload: Option<DraftPayload>)
    requires |config.childIds| > 0
    requires helper.childId == config.childIds[0] && helper.token == config.userToken
    ensures Writes(KdCreateOrUpdate(config, list, payload).issued)
            == Writes(HelperCreateOrUpdate(helper, list, payload).issued)
    ensures payload.Some? ==>
              KdCreateOrUpdate(config, list, payload).fault
              == HelperCreateOrUpdate(helper, list, payload).fault
    ensures payload.None? ==>
              (HelperCreateOrUpdate(helper, list, payload).fault
               != KdCreateOrUpdate(config, list, payload).fault
               <==> list.status == 200 && list.totalHits > 0 && |list.drafts| == 0)
  {
    var k := KdCreateOrUpdate(config, list, payload).issued;
    var h := HelperCreateOrUpdate(helper, list, payload).issued;
    if |h| == 3 {
      WritesConcat([h[0], h[1]], [h[2]]);
      assert h == [h[0], h[1]] + [h[2]];
    }
    if |h| == 2 {
      WritesConcat([h[0]], [h[1]]);
      assert h == [h[0]] + [h[1]];
    }
    if |k| == 2 {
      WritesConcat([k[0]], [k[1]]);
      assert k == [k[0]] + [k[1]];
    }
  }
}
