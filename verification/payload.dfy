/** Draft payload construction: `get_draft_payload` of both scripts. Every
    timestamp is the target day's JST midnight plus a fixed offset, turned into
    epoch milliseconds; the two scripts differ only in the photos field, the
    temperature draw and which texts are free. */
module Payload {
  import opened Wrappers
  import opened Faults
  import opened Calendar
  import opened Clock

  datatype Health = Health(healthStatus: string, temperature: string, healthTime: int)
  datatype Sleep = Sleep(sleepTime: int, awakeTime: int)
  datatype Food = Food(foodMenu: string, foodTime: int)

  /** The JSON object sent to the draft create and update endpoints.
      `photos` is absent in the kidsdiary.py variant; `draftId` is only set
      by the reconciler just before an update. */
  datatype DraftPayload = DraftPayload(
    childId: string,
    userToken: string,
    publishScheduleDate: int,
    textContent: string,
    photos: Option<seq<string>>,
    health: Health,
    sleep: Sleep,
    food: Food,
    pickUpPerson: string,
    pickUpTime: int,
    draftId: Option<string>)

  /** Offsets of the six timestamps from local midnight, in microseconds. */
  datatype Offsets = Offsets(publish: int, sleep: int, awake: int, food: int, health: int, pickUp: int)

  /** Publish 08:30, slept 20:00 the evening before, awake 08:00, food 08:15,
      temperature 08:10, pick-up 16:30. */
  const DefaultOffsets := Offsets(
    8 * UsPerHour + 30 * UsPerMinute,
    -4 * UsPerHour,
    8 * UsPerHour,
    8 * UsPerHour + 15 * UsPerMinute,
    8 * UsPerHour + 10 * UsPerMinute,
    16 * UsPerHour + 30 * UsPerMinute)

  const HealthStatus := "Health"
  const FixedFoodMenu := "Milk and bread"
  const FixedPickUpPerson := "Father"

  predicate WholeOffsets(o: Offsets) {
    WholeMillis(o.publish) && WholeMillis(o.sleep) && WholeMillis(o.awake)
    && WholeMillis(o.food) && WholeMillis(o.health) && WholeMillis(o.pickUp)
  }

  /** `midnight + offset` stays inside the representable years. */
  predicate Reachable(midnight: DateTime, offset: int)
    requires Valid(midnight)
  {
    MinStamp <= Stamp(midnight) + offset < EndStamp
  }

  predicate AllReachable(midnight: DateTime, o: Offsets)
    requires Valid(midnight)
  {
    Reachable(midnight, o.publish) && Reachable(midnight, o.sleep) && Reachable(midnight, o.awake)
    && Reachable(midnight, o.food) && Reachable(midnight, o.health) && Reachable(midnight, o.pickUp)
  }

  /** Every timestamp of `p` is `base` plus its offset in milliseconds. */
  predicate ScheduledFrom(p: DraftPayload, base: int, o: Offsets) {
    && p.publishScheduleDate == base + o.publish / UsPerMs
    && p.sleep.sleepTime == base + o.sleep / UsPerMs
    && p.sleep.awakeTime == base + o.awake / UsPerMs
    && p.food.foodTime == base + o.food / UsPerMs
    && p.health.healthTime == base + o.health / UsPerMs
    && p.pickUpTime == base + o.pickUp / UsPerMs
  }

  /** sleep < awake < health < food < publish < pick-up. */
  predicate Chronological(p: DraftPayload) {
    p.sleep.sleepTime < p.sleep.awakeTime < p.health.healthTime
    < p.food.foodTime < p.publishScheduleDate < p.pickUpTime
  }

  /** Epoch milliseconds of the JST midnight starting `date`'s day. */
  function MidnightMillis(date: DateTime): int
    requires Valid(date)
  {
    EpochMillis(Midnight(date), JstOffset)
  }

  lemma MidnightWholeMillis(date: DateTime)
    requires Valid(date)
    ensures WholeMillis(EpochMicros(Midnight(date), JstOffset))
  {
    var ms := (Ordinal(date.date) - EpochOrdinal) * MsPerDay - 32_400_000;
    assert EpochMicros(Midnight(date), JstOffset) == ms * UsPerMs;
  }

  /** `epoch_millis(dt0am + offset)`, or `None` where the sum overflows. */
  function TimeAt(midnight: DateTime, offset: int): (r: Option<int>)
    requires Valid(midnight) && WholeMillis(EpochMicros(midnight, JstOffset))
    ensures r.Some? <==> Reachable(midnight, offset)
    ensures r.Some? && WholeMillis(offset) ==>
              r.value == EpochMillis(midnight, JstOffset) + offset / UsPerMs
  {
    var t := Add(midnight, offset);
    if t.None? then None
    else
      if WholeMillis(offset) then EpochMillisShift(midnight, JstOffset, offset); Some(EpochMillis(t.value, JstOffset))
      else Some(EpochMillis(t.value, JstOffset))
  }

  /** The dictionary both `get_draft_payload`s return, from already chosen
      texts and temperature; `None` where one of the sums overflows. */
  function Assemble(childId: string, userToken: string, date: DateTime, text: string,
                    photos: Option<seq<string>>, foodMenu: string, pickUpPerson: string,
                    o: Offsets, temperature: string): (r: Option<DraftPayload>)
    requires Valid(date)
    ensures r.Some? <==> AllReachable(Midnight(date), o)
    ensures r.Some? ==>
              && r.value.childId == childId && r.value.userToken == userToken
              && r.value.textContent == text && r.value.photos == photos
              && r.value.food.foodMenu == foodMenu && r.value.pickUpPerson == pickUpPerson
              && r.value.health.healthStatus == HealthStatus
              && r.value.health.temperature == temperature
              && r.value.draftId == None
    ensures r.Some? && WholeOffsets(o) ==> ScheduledFrom(r.value, MidnightMillis(date), o)
  {
    var mid := Midnight(date);
    MidnightWholeMillis(date);
    var publish := TimeAt(mid, o.publish);
    var sleep := TimeAt(mid, o.sleep);
    var awake := TimeAt(mid, o.awake);
    var food := TimeAt(mid, o.food);
    var health := TimeAt(mid, o.health);
    var pickUp := TimeAt(mid, o.pickUp);
    if publish.None? || sleep.None? || awake.None? || food.None? || health.None? || pickUp.None? then
      None
    else
      Some(DraftPayload(
        childId, userToken, publish.value, text, photos,
        Health(HealthStatus, temperature, health.value),
        Sleep(sleep.value, awake.value),
        Food(foodMenu, food.value),
        pickUpPerson, pickUp.value, None))
  }

  /** With the default offsets every sum is in range except on 0001-01-01,
      where "20:00 the evening before" does not exist. */
  lemma DefaultsReachable(date: DateTime)
    requires Valid(date)
    ensures AllReachable(Midnight(date), DefaultOffsets) <==> Ordinal(date.date) >= 2
  {
    InRangeIffOrdinal(date.date);
  }

  /** With the default offsets the six timestamps are strictly ordered. */
  lemma DefaultsChronological(p: DraftPayload, base: int)
    requires ScheduledFrom(p, base, DefaultOffsets)
    ensures Chronological(p)
  {
  }

  // Temperature text

  function DigitChar(d: int): char
    requires 0 <= d <= 9
  {
    (('0' as int) + d) as char
  }

  predicate IsDigit(c: char) {
    '0' <= c <= '9'
  }

  function DigitValue(c: char): int
    requires IsDigit(c)
  {
    (c as int) - ('0' as int)
  }

  /** A temperature given in tenths of a degree, written as Python's `str`
      writes a float with two integral digits and one decimal: "36.4", "37.0". */
  function TemperatureText(tenths: int): (s: string)
    requires 100 <= tenths <= 999
    ensures |s| == 4 && s[2] == '.'
  {
    [DigitChar(tenths / 100), DigitChar(tenths / 10 % 10), '.', DigitChar(tenths % 10)]
  }

  /** Reads "dd.d" back as tenths of a degree. */
  function ParseTenths(s: string): (r: Option<int>)
    ensures r.Some? ==> |s| == 4 && s[2] == '.' && 0 <= r.value <= 999
  {
    if |s| == 4 && IsDigit(s[0]) && IsDigit(s[1]) && s[2] == '.' && IsDigit(s[3]) then
      Some(DigitValue(s[0]) * 100 + DigitValue(s[1]) * 10 + DigitValue(s[3]))
    else
      None
  }

  lemma TemperatureRoundTrip(tenths: int)
    requires 100 <= tenths <= 999
    ensures ParseTenths(TemperatureText(tenths)) == Some(tenths)
  {
  }

  lemma ParseRoundTrip(s: string)
    requires ParseTenths(s).Some? && ParseTenths(s).value >= 100
    ensures TemperatureText(ParseTenths(s).value) == s
  {
    var t := ParseTenths(s).value;
    assert t / 100 == DigitValue(s[0]);
    assert t / 10 % 10 == DigitValue(s[1]);
    assert t % 10 == DigitValue(s[3]);
  }

  /** kd.py's `get_random_body_temperature`, formatted: `randint(364, 371) / 10`,
      the random integer being `draw`. */
  function KdTemperature(draw: int): (s: string)
    requires 364 <= draw <= 371
    ensures ParseTenths(s) == Some(draw)
    ensures s[..3] == "36." || s[..3] == "37."
  {
    TemperatureRoundTrip(draw);
    TemperatureText(draw)
  }

  /** The digits kidsdiary.py chooses the tenths from. */
  const TemperatureDigits := [4, 5, 6, 7, 8]

  /** kidsdiary.py's `f"36.{random.choice([4, 5, 6, 7, 8])}"`, the random
      index being `choice`. */
  function HelperTemperature(choice: int): (s: string)
    requires 0 <= choice < |TemperatureDigits|
    ensures |s| == 4 && s[..3] == "36."
    ensures ParseTenths(s).Some? && 364 <= ParseTenths(s).value <= 368
    ensures ParseTenths(s).value == 360 + TemperatureDigits[choice]
  {
    "36." + [DigitChar(TemperatureDigits[choice])]
  }

  // kd.py

  /** kd.py's stored session: token and the account's child ids. */
  datatype Config = Config(userToken: string, childIds: seq<string>)

  /** kd.py's `KidsDiaryCLI.get_draft_payload`. */
  function KdDraftPayload(config: Config, date: DateTime, message: string, foodMenu: string,
                          pickUpPerson: string, photos: Option<seq<string>>, o: Offsets,
                          draw: int): (r: Result<DraftPayload, Fault>)
    requires Valid(date) && 364 <= draw <= 371
    ensures |config.childIds| == 0 ==> r == Failure(NoChildId)
    ensures |config.childIds| > 0 ==>
              (r.Success? <==> AllReachable(Midnight(date), o))
              && (r.Failure? ==> r.error == DateOutOfRange)
    ensures r.Success? ==>
              && r.value.childId == config.childIds[0] && r.value.userToken == config.userToken
              && r.value.textContent == message
              && r.value.photos == Some(if photos.Some? then photos.value else [])
              && r.value.food.foodMenu == foodMenu && r.value.pickUpPerson == pickUpPerson
              && ParseTenths(r.value.health.temperature) == Some(draw)
              && r.value.draftId == None
    ensures r.Success? && WholeOffsets(o) ==> ScheduledFrom(r.value, MidnightMillis(date), o)
  {
    if |config.childIds| == 0 then Failure(NoChildId)
    else
      var shown := if photos.Some? then photos.value else [];
      match Assemble(config.childIds[0], config.userToken, date, message, Some(shown),
                     foodMenu, pickUpPerson, o, KdTemperature(draw))
      case Some(p) => Success(p)
      case None => Failure(DateOutOfRange)
  }

  // kidsdiary.py

  /** kidsdiary.py's `KidsDiaryDraftHelper`: a token and the child it resolved. */
  datatype Helper = Helper(token: string, childId: string)

  /** The `my_profile` reply the helper's constructor reads. */
  datatype ProfileResponse = ProfileResponse(status: int, childIds: seq<string>)

  /** `KidsDiaryDraftHelper.__init__`: keeps the profile's first child id. */
  function NewHelper(token: string, profile: ProfileResponse): (r: Result<Helper, Fault>)
    ensures profile.status != 200 ==> r == Failure(ProfileUnavailable)
    ensures profile.status == 200 && |profile.childIds| == 0 ==> r == Failure(NoChildId)
    ensures r.Success? <==> profile.status == 200 && |profile.childIds| > 0
    ensures r.Success? ==> r.value.token == token && r.value.childId == profile.childIds[0]
  {
    if profile.status != 200 then Failure(ProfileUnavailable)
    else if |profile.childIds| == 0 then Failure(NoChildId)
    else Success(Helper(token, profile.childIds[0]))
  }

  /** kidsdiary.py's `KidsDiaryDraftHelper.get_draft_payload`: no photos, and
      the food menu and pick-up person are fixed. */
  function HelperDraftPayload(helper: Helper, date: DateTime, text: string, o: Offsets,
                              choice: int): (r: Option<DraftPayload>)
    requires Valid(date) && 0 <= choice < |TemperatureDigits|
    ensures r.Some? <==> AllReachable(Midnight(date), o)
    ensures r.Some? ==>
              && r.value.childId == helper.childId && r.value.userToken == helper.token
              && r.value.textContent == text && r.value.photos == None
              && r.value.food.foodMenu == FixedFoodMenu
              && r.value.pickUpPerson == FixedPickUpPerson
              && ParseTenths(r.value.health.temperature).Some?
              && r.value.health.temperature[..3] == "36."
              && 364 <= ParseTenths(r.value.health.temperature).value <= 368
              && ParseTenths(r.value.health.temperature) == Some(360 + TemperatureDigits[choice])
              && r.value.draftId == None
    ensures r.Some? && WholeOffsets(o) ==> ScheduledFrom(r.value, MidnightMillis(date), o)
  {
    Assemble(helper.childId, helper.token, date, text, None, FixedFoodMenu, FixedPickUpPerson,
             o, HelperTemperature(choice))
  }

  // Properties of the payloads

  /** kd.py with the default offsets: defined on every day but 0001-01-01,
      and its timestamps are ordered. */
  lemma KdDefaultsOrdered(config: Config, date: DateTime, message: string, foodMenu: string,
                          pickUpPerson: string, photos: Option<seq<string>>, draw: int)
    requires Valid(date) && 364 <= draw <= 371 && |config.childIds| > 0
    requires Ordinal(date.date) >= 2
    ensures KdDraftPayload(config, date, message, foodMenu, pickUpPerson, photos,
                           DefaultOffsets, draw).Success?
    ensures Chronological(KdDraftPayload(config, date, message, foodMenu, pickUpPerson, photos,
                                         DefaultOffsets, draw).value)
  {
    DefaultsReachable(date);
    DefaultOffsetsWhole();
    var r := KdDraftPayload(config, date, message, foodMenu, pickUpPerson, photos,
                            DefaultOffsets, draw);
    assert r.Success?;
    assert ScheduledFrom(r.value, MidnightMillis(date), DefaultOffsets);
    DefaultsChronological(r.value, MidnightMillis(date));
  }

  /** kidsdiary.py with the default offsets: the same ordering. */
  lemma HelperDefaultsOrdered(helper: Helper, date: DateTime, text: string, choice: int)
    requires Valid(date) && 0 <= choice < |TemperatureDigits|
    requires Ordinal(date.date) >= 2
    ensures HelperDraftPayload(helper, date, text, DefaultOffsets, choice).Some?
    ensures Chronological(HelperDraftPayload(helper, date, text, DefaultOffsets, choice).value)
  {
    DefaultsReachable(date);
    DefaultOffsetsWhole();
    var r := HelperDraftPayload(helper, date, text, DefaultOffsets, choice);
    assert r.Some?;
    assert ScheduledFrom(r.value, MidnightMillis(date), DefaultOffsets);
    DefaultsChronological(r.value, MidnightMillis(date));
  }

  /** A draft for 2024-01-10, at whatever time of day, is published at
      1704843000000 (08:30 JST). */
  lemma KdPublishExample(config: Config, time: int, message: string, foodMenu: string,
                         pickUpPerson: string, photos: Option<seq<string>>, draw: int)
    requires 0 <= time < UsPerDay && 364 <= draw <= 371 && |config.childIds| > 0
    ensures KdDraftPayload(config, DateTime(Date(2024, 1, 10), time), message, foodMenu,
                           pickUpPerson, photos, DefaultOffsets, draw).Success?
    ensures KdDraftPayload(config, DateTime(Date(2024, 1, 10), time), message, foodMenu,
                           pickUpPerson, photos, DefaultOffsets, draw).value.publishScheduleDate
            == 1704843000000
  {
    var date := DateTime(Date(2024, 1, 10), time);
    DefaultsReachable(date);
    DefaultOffsetsWhole();
    var r := KdDraftPayload(config, date, message, foodMenu, pickUpPerson, photos, DefaultOffsets, draw);
    assert r.Success?;
    assert ScheduledFrom(r.value, MidnightMillis(date), DefaultOffsets);
    PublishExample();
    assert MidnightMillis(date) + DefaultOffsets.publish / UsPerMs == 1704843000000;
  }

  /** Building the payload for the next day moves every timestamp by exactly
      86,400,000 ms and changes nothing else. */
  lemma NextDayPayload(childId: string, userToken: string, date: DateTime, text: string,
                       photos: Option<seq<string>>, foodMenu: string, pickUpPerson: string,
                       o: Offsets, temperature: string)
    requires Valid(date) && WholeOffsets(o) && Add(date, UsPerDay).Some?
    requires Assemble(childId, userToken, date, text, photos, foodMenu, pickUpPerson, o, temperature).Some?
    requires Assemble(childId, userToken, Add(date, UsPerDay).value, text, photos, foodMenu,
                      pickUpPerson, o, temperature).Some?
    ensures var p := Assemble(childId, userToken, date, text, photos, foodMenu, pickUpPerson,
                              o, temperature).value;
            var q := Assemble(childId, userToken, Add(date, UsPerDay).value, text, photos,
                              foodMenu, pickUpPerson, o, temperature).value;
            ScheduledFrom(q, MidnightMillis(date) + MsPerDay, o)
            && q == p.(publishScheduleDate := q.publishScheduleDate,
                       health := p.health.(healthTime := q.health.healthTime),
                       sleep := q.sleep, food := p.food.(foodTime := q.food.foodTime),
                       pickUpTime := q.pickUpTime)
  {
    NextDayMidnightMillis(date);
  }

  /** JST midnight of the next day is exactly 86,400,000 ms later. */
  lemma NextDayMidnightMillis(date: DateTime)
    requires Valid(date) && Add(date, UsPerDay).Some?
    ensures MidnightMillis(Add(date, UsPerDay).value) == MidnightMillis(date) + MsPerDay
  {
    var next := Add(date, UsPerDay).value;
    MidnightWholeMillis(date);
    MidnightWholeMillis(next);
    assert Ordinal(next.date) == Ordinal(date.date) + 1;
    assert EpochMicros(Midnight(next), JstOffset) == EpochMicros(Midnight(date), JstOffset) + UsPerDay;
  }

  lemma DefaultOffsetsWhole()
    ensures WholeOffsets(DefaultOffsets)
  {
  }
}
