/** kd.py's `draft --create` command (`command_draft`): pick the day, fetch
    the photos to attach, build the payload with the default offsets and
    reconcile it against the draft list. The session is taken as loaded;
    the current JST time, the photo and draft list replies and the random
    temperature draw are inputs. */
module DraftCommand {
  import opened Wrappers
  import opened Faults
  import opened Calendar
  import opened Clock
  import opened Payload
  import opened Photos
  import opened Reconcile

  /** Publication at 08:30, in milliseconds after midnight. */
  const PublishAfterMidnightMs := 30_600_000

  /** The day the draft is for: the current day with `--today`, otherwise `nearest()`. */
  function DraftDay(now: DateTime, today: bool): (r: Option<DateTime>)
    requires Valid(now)
    ensures r.Some? ==> Valid(r.value)
    ensures today ==> r == Some(now)
    ensures !today ==> r == Nearest(now)
  {
    if today then Some(Today(now)) else Nearest(now)
  }

  /** The payload `command_draft` builds for `day`: the selected photos and the default offsets. */
  function CommandPayload(config: Config, day: DateTime, message: string, foodMenu: string,
                          pickUpPerson: string, photoReply: PhotoListResponse, usePhotos: int,
                          draw: int): Result<DraftPayload, Fault>
    requires Valid(day) && 364 <= draw <= 371
  {
    KdDraftPayload(config, day, message, foodMenu, pickUpPerson,
                   Some(LastPhotos(photoReply, usePhotos)), DefaultOffsets, draw)
  }

  /** The album request `fetch` followed by the reconciler's requests for `p`. */
  function AfterFetch(fetch: Request, config: Config, list: ListResponse, p: DraftPayload): (r: Run)
    requires !IsWrite(fetch)
    ensures |r.issued| >= 1 && r.issued[0] == fetch
    ensures r.issued[1..] == KdCreateOrUpdate(config, list, Some(p)).issued
    ensures r.fault == KdCreateOrUpdate(config, list, Some(p)).fault
    ensures Writes(r.issued) == Writes(KdCreateOrUpdate(config, list, Some(p)).issued)
    ensures forall i :: 0 <= i < |r.issued| && IsWrite(r.issued[i]) ==>
              && r.issued[i].payload.photos == p.photos
              && r.issued[i].payload.publishScheduleDate == p.publishScheduleDate
              && r.issued[i].payload.childId == p.childId
              && r.issued[i].payload.textContent == p.textContent
  {
    var run := KdCreateOrUpdate(config, list, Some(p));
    WritesConcat([fetch], run.issued);
    WritesCarryPayload(config, list, p, fetch);
    Run([fetch] + run.issued, run.fault)
  }

  /** `command_draft` with `--create` once the day is chosen: the album
      request, then the payload, then reconciliation. */
  function CommandOnDay(config: Config, day: DateTime, message: string, foodMenu: string,
                        pickUpPerson: string, photoReply: PhotoListResponse, usePhotos: int,
                        draw: int, list: ListResponse): (r: Run)
    requires Valid(day) && 364 <= draw <= 371
    ensures var p := CommandPayload(config, day, message, foodMenu, pickUpPerson,
                                    photoReply, usePhotos, draw);
            && |r.issued| >= 1 && r.issued[0] == ListPhotos(config.userToken)
            && (p.Failure? ==> r == Run([ListPhotos(config.userToken)], Some(p.error)))
            && (p.Success? ==>
                  && r.issued[1..] == KdCreateOrUpdate(config, list, Some(p.value)).issued
                  && r.fault == KdCreateOrUpdate(config, list, Some(p.value)).fault)
    ensures |Writes(r.issued)| <= 1
    ensures forall i :: 0 <= i < |r.issued| && IsWrite(r.issued[i]) ==>
              && r.issued[i].payload.photos == Some(LastPhotos(photoReply, usePhotos))
              && r.issued[i].payload.publishScheduleDate == MidnightMillis(day) + PublishAfterMidnightMs
              && |config.childIds| > 0 && r.issued[i].payload.childId == config.childIds[0]
              && r.issued[i].payload.textContent == message
  {
    var fetch := ListPhotos(config.userToken);
    DefaultOffsetsWhole();
    match CommandPayload(config, day, message, foodMenu, pickUpPerson, photoReply, usePhotos, draw)
    case Failure(e) => Run([fetch], Some(e))
    case Success(p) => AfterFetch(fetch, config, list, p)
  }

  /** `command_draft` with `--create`, from the day choice on. */
  function CreateCommand(config: Config, now: DateTime, today: bool, message: string,
                         foodMenu: string, pickUpPerson: string, photoReply: PhotoListResponse,
                         usePhotos: int, draw: int, list: ListResponse): (r: Run)
    requires Valid(now) && 364 <= draw <= 371
    requires 0 <= usePhotos < 3
    ensures DraftDay(now, today).None? ==> r == Run([], Some(DateOutOfRange))
    ensures DraftDay(now, today).Some? ==>
              var p := CommandPayload(config, DraftDay(now, today).value, message, foodMenu,
                                      pickUpPerson, photoReply, usePhotos, draw);
              && |r.issued| >= 1 && r.issued[0] == ListPhotos(config.userToken)
              && (p.Failure? ==> r == Run([ListPhotos(config.userToken)], Some(p.error)))
              && (p.Success? ==>
                    && r.issued[1..] == KdCreateOrUpdate(config, list, Some(p.value)).issued
                    && r.fault == KdCreateOrUpdate(config, list, Some(p.value)).fault)
    ensures |Writes(r.issued)| <= 1
    ensures forall i :: 0 <= i < |r.issued| && IsWrite(r.issued[i]) ==>
              && DraftDay(now, today).Some?
              && r.issued[i].payload.photos == Some(LastPhotos(photoReply, usePhotos))
              && r.issued[i].payload.publishScheduleDate
                 == MidnightMillis(DraftDay(now, today).value) + PublishAfterMidnightMs
              && |config.childIds| > 0 && r.issued[i].payload.childId == config.childIds[0]
              && r.issued[i].payload.textContent == message
  {
    match DraftDay(now, today)
    case None => Run([], Some(DateOutOfRange))
    case Some(day) =>
      CommandOnDay(config, day, message, foodMenu, pickUpPerson, photoReply, usePhotos, draw, list)
  }

  /** When `draft --create` writes and how it fails: it writes exactly when the
      day can be chosen, a child id is configured, the day is later than
      0001-01-01 (whose 20:00 bedtime the evening before is out of range), and
      the list reply is 200 without hits or with a first draft. It fails with
      OverflowError on the day choice or that first day, with IndexError on a
      missing child id or on hits with an empty list. */
  lemma CommandOutcome(config: Config, now: DateTime, today: bool, message: string,
                       foodMenu: string, pickUpPerson: string, photoReply: PhotoListResponse,
                       usePhotos: int, draw: int, list: ListResponse)
    requires Valid(now) && 364 <= draw <= 371 && 0 <= usePhotos < 3
    ensures var r := CreateCommand(config, now, today, message, foodMenu, pickUpPerson,
                                   photoReply, usePhotos, draw, list);
            var day := DraftDay(now, today);
            && (|Writes(r.issued)| == 1 <==>
                  day.Some? && |config.childIds| > 0 && Ordinal(day.value.date) >= 2
                  && list.status == 200 && (list.totalHits <= 0 || |list.drafts| > 0))
            && r.fault == (if day.None? then Some(DateOutOfRange)
                           else if |config.childIds| == 0 then Some(NoChildId)
                           else if Ordinal(day.value.date) < 2 then Some(DateOutOfRange)
                           else if list.status == 200 && list.totalHits > 0 && |list.drafts| == 0
                           then Some(NoFirstDraft)
                           else None)
  {
    var r := CreateCommand(config, now, today, message, foodMenu, pickUpPerson,
                           photoReply, usePhotos, draw, list);
    var fetch := ListPhotos(config.userToken);
    assert Writes([fetch]) == [];
    if DraftDay(now, today).Some? {
      var day := DraftDay(now, today).value;
      DefaultsReachable(day);
      var p := CommandPayload(config, day, message, foodMenu, pickUpPerson, photoReply, usePhotos, draw);
      if p.Failure? {
        assert r.issued == [fetch];
      } else {
        assert Writes(r.issued) == Writes(KdCreateOrUpdate(config, list, Some(p.value)).issued);
      }
    }
  }

  /** Every write the reconciler issues after `first` carries `p`'s content. */
  lemma WritesCarryPayload(config: Config, list: ListResponse, p: DraftPayload, first: Request)
    requires !IsWrite(first)
    ensures var reqs := [first] + KdCreateOrUpdate(config, list, Some(p)).issued;
            forall i :: 0 <= i < |reqs| && IsWrite(reqs[i]) ==>
              && reqs[i].payload.photos == p.photos
              && reqs[i].payload.publishScheduleDate == p.publishScheduleDate
              && reqs[i].payload.childId == p.childId
              && reqs[i].payload.textContent == p.textContent
  {
    var run := KdCreateOrUpdate(config, list, Some(p));
    var reqs := [first] + run.issued;
    forall i | 0 <= i < |reqs| && IsWrite(reqs[i])
      ensures reqs[i].payload.photos == p.photos
      ensures reqs[i].payload.publishScheduleDate == p.publishScheduleDate
      ensures reqs[i].payload.childId == p.childId
      ensures reqs[i].payload.textContent == p.textContent
    {
      assert reqs[i] == run.issued[i - 1];
    }
  }

  /** From 09:00 on, without `--today`, the draft is published at 08:30 the next day;
      before 09:00, or with `--today`, at 08:30 the same day. */
  lemma PublishesOnNearestDay(config: Config, now: DateTime, today: bool, message: string,
                              foodMenu: string, pickUpPerson: string, photoReply: PhotoListResponse,
                              usePhotos: int, draw: int, list: ListResponse, i: int)
    requires Valid(now) && 364 <= draw <= 371 && 0 <= usePhotos < 3
    requires var r := CreateCommand(config, now, today, message, foodMenu, pickUpPerson,
                                    photoReply, usePhotos, draw, list);
             0 <= i < |r.issued| && IsWrite(r.issued[i])
    ensures var r := CreateCommand(config, now, today, message, foodMenu, pickUpPerson,
                                   photoReply, usePhotos, draw, list);
            r.issued[i].payload.publishScheduleDate
            == MidnightMillis(now) + PublishAfterMidnightMs
               + (if !today && Hour(now) >= 9 then MsPerDay else 0)
  {
    if !today && Hour(now) >= 9 {
      NextDayMidnightMillis(now);
    }
  }

  /** With a draft on the server and a payload that can be built, the command
      issues the photo list, the draft list and one update of the first draft. */
  lemma UpdatesExistingDraft(config: Config, now: DateTime, today: bool, message: string,
                             foodMenu: string, pickUpPerson: string, photoReply: PhotoListResponse,
                             usePhotos: int, draw: int, list: ListResponse)
    requires Valid(now) && 364 <= draw <= 371 && 0 <= usePhotos < 3
    requires |config.childIds| > 0 && Ordinal(now.date) >= 2 && Ordinal(now.date) < MaxOrdinal
    requires list.status == 200 && list.totalHits > 0 && |list.drafts| > 0
    ensures var r := CreateCommand(config, now, today, message, foodMenu, pickUpPerson,
                                   photoReply, usePhotos, draw, list);
            && r.fault == None
            && |r.issued| == 3
            && r.issued[0] == ListPhotos(config.userToken)
            && r.issued[1] == ListDrafts(config.childIds[0], config.userToken)
            && r.issued[2].UpdateDraft?
            && r.issued[2].payload.draftId == Some(list.drafts[0].draftId)
  {
    var day := DraftDay(now, today).value;
    assert Ordinal(day.date) >= 2;
    DefaultsReachable(day);
    var p := KdDraftPayload(config, day, message, foodMenu, pickUpPerson,
                            Some(LastPhotos(photoReply, usePhotos)), DefaultOffsets, draw);
    assert p.Success?;
    KdUpdatesFirstDraft(config, list, p.value);
  }

  // As written

  /** `command_draft` with `--create` as written: `get_last_photos` slices the
      None that `get_all_photos` returns without photos, so the command raises
      TypeError right after the album request. With photos it is `CreateCommand`. */
  function CreateCommandAsWritten(config: Config, now: DateTime, today: bool, message: string,
                                  foodMenu: string, pickUpPerson: string,
                                  photoReply: PhotoListResponse, usePhotos: int, draw: int,
                                  list: ListResponse): (r: Run)
    requires Valid(now) && 364 <= draw <= 371
    requires 0 <= usePhotos < 3
    ensures DraftDay(now, today).None? ==> r == Run([], Some(DateOutOfRange))
    ensures DraftDay(now, today).Some? && !HasPhotos(photoReply) ==>
              r == Run([ListPhotos(config.userToken)], Some(NoneNotSliceable))
    ensures HasPhotos(photoReply) ==>
              r == CreateCommand(config, now, today, message, foodMenu, pickUpPerson,
                                 photoReply, usePhotos, draw, list)
  {
    match DraftDay(now, today)
    case None => Run([], Some(DateOutOfRange))
    case Some(day) =>
      match LastPhotosAsWritten(photoReply, usePhotos)
      case Failure(e) => Run([ListPhotos(config.userToken)], Some(e))
      case Success(_) =>
        CommandOnDay(config, day, message, foodMenu, pickUpPerson, photoReply, usePhotos, draw, list)
  }

  /** Where the corrected command creates or updates a draft for an account
      without photos, the command as written writes nothing and raises TypeError. */
  lemma NoPhotosBlocksDraft(config: Config, now: DateTime, today: bool, message: string,
                            foodMenu: string, pickUpPerson: string,
                            photoReply: PhotoListResponse, usePhotos: int, draw: int,
                            list: ListResponse)
    requires Valid(now) && 364 <= draw <= 371 && 0 <= usePhotos < 3
    requires !HasPhotos(photoReply)
    requires DraftDay(now, today).Some? && Ordinal(DraftDay(now, today).value.date) >= 2
    requires |config.childIds| > 0
    requires list.status == 200 && (list.totalHits <= 0 || |list.drafts| > 0)
    ensures |Writes(CreateCommand(config, now, today, message, foodMenu, pickUpPerson,
                                  photoReply, usePhotos, draw, list).issued)| == 1
    ensures CreateCommandAsWritten(config, now, today, message, foodMenu, pickUpPerson,
                                   photoReply, usePhotos, draw, list)
            == Run([ListPhotos(config.userToken)], Some(NoneNotSliceable))
  {
    CommandOutcome(config, now, today, message, foodMenu, pickUpPerson,
                   photoReply, usePhotos, draw, list);
  }
}
