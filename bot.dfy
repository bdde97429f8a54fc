/**
  The decision logic of the Telegram front end around the machine table:
  button callbacks, the custom-duration mode, the release-by-code scan, the
  scheduled expiry notification and its guard. Telegram itself is left out:
  what the bot would send is appended to an outbox of `Notice`s, and the job
  queue is the list of `Job`s it was asked to run.
 */
module Bot {
  import opened Options
  import opened Text
  import opened DataManager

  // ---------------------------------------------------------------------------
  // Durations
  // ---------------------------------------------------------------------------

  const WashingMachineTimes: seq<nat> := [2, 50, 60]
  const DryerTimes: seq<nat> := [45, 55, 65]
  const MaxCustomMinutes: int := 300

  /** The bound `handle_code_message` puts on a typed duration: it refuses `duration <= 0 or duration > 300`. */
  predicate ValidDuration(minutes: int) {
    !(minutes <= 0 || minutes > MaxCustomMinutes)
  }

  /** The preset durations `show_time_options` offers: washer presets for a washing machine, dryer presets otherwise. */
  function TimeOptions(kind: MachineType): (r: seq<nat>)
    ensures |r| == 3
    ensures forall i :: 0 <= i < |r| ==> ValidDuration(r[i])
  {
    if kind == WashingMachine then WashingMachineTimes else DryerTimes
  }

  // ---------------------------------------------------------------------------
  // Callback data
  // ---------------------------------------------------------------------------

  function MachineButton(machineId: string): string {
    "machine_" + machineId
  }

  function TimeButton(machineId: string, minutes: nat): string {
    "time_" + machineId + "_" + DecimalText(minutes)
  }

  function CustomButton(machineId: string): string {
    "custom_" + machineId
  }

  /** The callback data of the duration menu: one button per preset, then the custom-time button. */
  function TimeButtons(machineId: string, kind: MachineType): (r: seq<string>) {
    var times := TimeOptions(kind);
    seq(|times|, i requires 0 <= i < |times| => TimeButton(machineId, times[i])) + [CustomButton(machineId)]
  }

  /** What `button_handler` makes of a callback string. */
  datatype Callback =
    | ShowStatus
    | ChooseType
    | ListWashers
    | ListDryers
    | PickMachine(machineId: string)
    | PickTime(machineId: string, minutes: int)
    | AskCustom(machineId: string)
    | StartCollect
    | BackToMain
    | BackToMachines
    | Unhandled
    | Crash   // `int()` raised, or the duration part is missing

  /**
    `button_handler`'s dispatch: the exact menu names first, then the
    prefixed callbacks, then the remaining names.
   */
  function ParseCallback(data: string): (r: Callback)
    ensures r == ShowStatus <==> data == "status"
    ensures r == ChooseType <==> data == "use_machine"
    ensures r == ListWashers <==> data == "washing_machines"
    ensures r == ListDryers <==> data == "dryers"
    ensures r == StartCollect <==> data == "collect"
    ensures r == BackToMain <==> data == "back_to_main"
    ensures r == BackToMachines <==> data == "back_to_machines"
    ensures r.PickMachine? ==> StartsWith(data, "machine_") && '_' !in r.machineId
    ensures r.PickTime? || r == Crash ==> StartsWith(data, "time_")
    ensures r.PickTime? ==> '_' !in r.machineId
    ensures r.AskCustom? ==> StartsWith(data, "custom_") && '_' !in r.machineId
  {
    if data == "status" then ShowStatus
    else if data == "use_machine" then ChooseType
    else if data == "washing_machines" then ListWashers
    else if data == "dryers" then ListDryers
    else ParsePrefixed(data)
  }

  /** The callbacks recognised by prefix, whose fields come from `data.split("_")`. */
  function ParsePrefixed(data: string): (r: Callback)
    ensures r != ShowStatus && r != ChooseType && r != ListWashers && r != ListDryers
    ensures r.PickMachine? <==> StartsWith(data, "machine_")
    ensures r.PickTime? || r == Crash <==> StartsWith(data, "time_")
    ensures r.AskCustom? <==> StartsWith(data, "custom_")
    ensures r == StartCollect <==> data == "collect"
    ensures r == BackToMain <==> data == "back_to_main"
    ensures r == BackToMachines <==> data == "back_to_machines"
    ensures (r.PickMachine? || r.PickTime? || r.AskCustom?) ==> '_' !in r.machineId
  {
    if StartsWith(data, "machine_") then
      assert data[0] == 'm' && data[7] == '_';
      PickMachine(Split(data, '_')[1])
    else if StartsWith(data, "time_") then
      assert data[0] == 't' && data[4] == '_';
      ParseTimeParts(Split(data, '_'))
    else if StartsWith(data, "custom_") then
      assert data[0] == 'c' && data[1] == 'u' && data[6] == '_';
      AskCustom(Split(data, '_')[1])
    else if data == "collect" then StartCollect
    else if data == "back_to_main" then BackToMain
    else if data == "back_to_machines" then BackToMachines
    else Unhandled
  }

  /** `machine_id = parts[1]; duration = int(parts[2])`: a missing or non-numeric duration raises. */
  function ParseTimeParts(parts: seq<string>): (r: Callback)
    requires |parts| >= 2
    ensures r.PickTime? || r == Crash
    ensures r == Crash <==> |parts| < 3 || ParseInt(parts[2]).None?
    ensures r.PickTime? ==> r.machineId == parts[1] && ParseInt(parts[2]) == Some(r.minutes)
  {
    if |parts| < 3 then Crash
    else match ParseInt(parts[2])
      case None => Crash
      case Some(minutes) => PickTime(parts[1], minutes)
  }

  /** A machine button parses back to its machine. */
  lemma {:induction false} MachineButtonParses(machineId: string)
    requires '_' !in machineId
    ensures ParseCallback(MachineButton(machineId)) == PickMachine(machineId)
  {
    var data := MachineButton(machineId);
    assert data[0] == 'm';
    assert StartsWith(data, "machine_");
    assert data == "machine" + ['_'] + machineId;
    SplitAfterHead("machine", '_', machineId);
  }

  /** A duration button parses back to its machine and duration. */
  lemma {:induction false} TimeButtonParses(machineId: string, minutes: nat)
    requires '_' !in machineId
    ensures ParseCallback(TimeButton(machineId, minutes)) == PickTime(machineId, minutes)
  {
    var digits := DecimalText(minutes);
    var data := TimeButton(machineId, minutes);
    var rest := machineId + ['_'] + digits;
    assert data == "time" + ['_'] + rest;
    assert ParseCallback(data) == ParsePrefixed(data) by {
      assert data[0] == 't';
    }
    assert ParsePrefixed(data) == ParseTimeParts(Split(data, '_')) by {
      assert data[0] == 't';
      assert data[..5] == "time_";
    }
    assert Split(data, '_') == ["time", machineId, digits] by {
      SplitAfterHead("time", '_', rest);
      SplitAfterHead(machineId, '_', digits);
      assert '_' !in digits;
    }
    ParseDecimalText(minutes);
  }

  /** The custom-time button parses back to its machine. */
  lemma {:induction false} CustomButtonParses(machineId: string)
    requires '_' !in machineId
    ensures ParseCallback(CustomButton(machineId)) == AskCustom(machineId)
  {
    var data := CustomButton(machineId);
    assert data == "custom" + ['_'] + machineId;
    assert ParseCallback(data) == ParsePrefixed(data) by {
      assert data[0] == 'c';
    }
    assert ParsePrefixed(data) == AskCustom(Split(data, '_')[1]) by {
      assert data[0] == 'c';
      assert data[..7] == "custom_";
    }
    SplitAfterHead("custom", '_', machineId);
  }

  /** Every button of a duration menu reserves that machine for a duration within 1..300, or asks for a custom one. */
  lemma {:induction false} TimeMenuParses(machineId: string, kind: MachineType)
    requires '_' !in machineId
    ensures forall b :: b in TimeButtons(machineId, kind) ==>
      || ParseCallback(b) == AskCustom(machineId)
      || (ParseCallback(b).PickTime? && ParseCallback(b).machineId == machineId && ValidDuration(ParseCallback(b).minutes))
  {
    var times := TimeOptions(kind);
    forall b | b in TimeButtons(machineId, kind)
      ensures || ParseCallback(b) == AskCustom(machineId)
              || (ParseCallback(b).PickTime? && ParseCallback(b).machineId == machineId && ValidDuration(ParseCallback(b).minutes))
    {
      var i :| 0 <= i < |TimeButtons(machineId, kind)| && TimeButtons(machineId, kind)[i] == b;
      if i < |times| {
        TimeButtonParses(machineId, times[i]);
      } else {
        CustomButtonParses(machineId);
      }
    }
  }

  /** The seeded ids contain no underscore, so their buttons parse back to them. */
  lemma {:induction false} SeedIdsRoundTrip()
    ensures forall k :: 0 <= k < |Seed()| ==> '_' !in Seed()[k].id
  {
    SeedContents();
  }

  // ---------------------------------------------------------------------------
  // Text messages: custom duration or collection code
  // ---------------------------------------------------------------------------

  /** The scan of `handle_code_message`: a row that is in use and holds the code. */
  predicate HoldsCode(m: Machine, code: string) {
    m.code == code && m.status == InUse
  }

  /** The position of the first row in use that holds the code. */
  function IndexOfCode(ms: seq<Machine>, code: string): (r: Option<nat>)
    ensures r.Some? ==> r.value < |ms| && HoldsCode(ms[r.value], code)
    ensures r.Some? ==> forall j :: 0 <= j < r.value ==> !HoldsCode(ms[j], code)
    ensures r.None? ==> forall j :: 0 <= j < |ms| ==> !HoldsCode(ms[j], code)
  {
    if ms == [] then None
    else if HoldsCode(ms[0], code) then Some(0)
    else match IndexOfCode(ms[1..], code)
      case None => None
      case Some(k) => Some(k + 1)
  }

  /** The `for ... break` loop that finds which machine has the code. */
  method FindMachineWithCode(ms: seq<Machine>, code: string) returns (found: Option<nat>)
    ensures found == IndexOfCode(ms, code)
  {
    found := None;
    for i := 0 to |ms|
      invariant forall j :: 0 <= j < i ==> !HoldsCode(ms[j], code)
    {
      if ms[i].code == code && ms[i].status == InUse {
        found := Some(i);
        break;
      }
    }
  }

  /** What `handle_code_message` decides to do with a text message. */
  datatype TextAction =
    | BadFormat(machineId: string)
    | BadDuration(machineId: string)
    | Reserve(machineId: string, minutes: int)
    | NoSuchCode
    | Collect(index: nat, code: string)

  /**
    While the user has a pending custom-time request, a message is a
    duration (and never a code); otherwise it is a code, upper-cased, and the
    first in-use row holding it is chosen.
   */
  function DecideText(waiting: map<int, string>, ms: seq<Machine>, userId: int, text: string): (a: TextAction)
    ensures userId in waiting <==> a.BadFormat? || a.BadDuration? || a.Reserve?
    ensures a.BadFormat? || a.BadDuration? ==> a.machineId == waiting[userId]
    ensures a.BadFormat? ==> ParseInt(Strip(text)) == None
    ensures a.BadDuration? ==> ParseInt(Strip(text)).Some? && !ValidDuration(ParseInt(Strip(text)).value)
    ensures a.Reserve? ==>
      && a.machineId == waiting[userId]
      && ParseInt(Strip(text)) == Some(a.minutes)
      && ValidDuration(a.minutes)
    ensures a.NoSuchCode? ==> forall k :: 0 <= k < |ms| ==> !HoldsCode(ms[k], Upper(Strip(text)))
    ensures a.Collect? ==>
      && a.code == Upper(Strip(text))
      && a.index < |ms| && HoldsCode(ms[a.index], a.code)
      && forall j :: 0 <= j < a.index ==> !HoldsCode(ms[j], a.code)
  {
    var t := Strip(text);
    if userId in waiting then
      match ParseInt(t)
      case None => BadFormat(waiting[userId])
      case Some(minutes) =>
        if minutes <= 0 || minutes > MaxCustomMinutes then BadDuration(waiting[userId])
        else Reserve(waiting[userId], minutes)
    else
      var code := Upper(t);
      match IndexOfCode(ms, code)
      case None => NoSuchCode
      case Some(k) => Collect(k, code)
  }

  /** A code `generate_code` returned survives the strip and upper-casing of the message. */
  lemma {:induction false} CodeSurvivesNormalisation(code: string)
    requires IsCode(code)
    ensures Upper(Strip(code)) == code
  {
    forall i | 0 <= i < |code| ensures UpperChar(code[i]) == code[i] && !IsSpace(code[i]) {
      CodeCharIsPlain(code[i]);
    }
    StripUnchanged(code);
    assert Upper(code) == code;
  }

  /** The pending-duration branch depends only on the number the text parses to. */
  lemma {:induction false} DecideParsedDuration(waiting: map<int, string>, ms: seq<Machine>, userId: int,
                                                text: string, minutes: int)
    requires userId in waiting && ParseInt(Strip(text)) == Some(minutes)
    ensures DecideText(waiting, ms, userId, text) ==
      if ValidDuration(minutes) then Reserve(waiting[userId], minutes) else BadDuration(waiting[userId])
  {
  }

  /** The duration bound at its edges: 0 and 301 are refused, 1 and 300 reserve. */
  lemma {:induction false} DurationBoundary(waiting: map<int, string>, ms: seq<Machine>, userId: int)
    requires userId in waiting
    ensures DecideText(waiting, ms, userId, "0").BadDuration?
    ensures DecideText(waiting, ms, userId, "1") == Reserve(waiting[userId], 1)
    ensures DecideText(waiting, ms, userId, "300") == Reserve(waiting[userId], 300)
    ensures DecideText(waiting, ms, userId, "301").BadDuration?
  {
    assert ParseInt(Strip("0")) == Some(0) by {
      assert DecimalText(0) == "0";
      StripUnchanged("0");
      ParseDecimalText(0);
    }
    DecideParsedDuration(waiting, ms, userId, "0", 0);
    assert ParseInt(Strip("1")) == Some(1) by {
      assert DecimalText(1) == "1";
      StripUnchanged("1");
      ParseDecimalText(1);
    }
    DecideParsedDuration(waiting, ms, userId, "1", 1);
    assert ParseInt(Strip("300")) == Some(300) by {
      assert DecimalText(30) == "30";
      assert DecimalText(300) == "300";
      StripUnchanged("300");
      ParseDecimalText(300);
    }
    DecideParsedDuration(waiting, ms, userId, "300", 300);
    assert ParseInt(Strip("301")) == Some(301) by {
      assert DecimalText(30) == "30";
      assert DecimalText(301) == "301";
      StripUnchanged("301");
      ParseDecimalText(301);
    }
    DecideParsedDuration(waiting, ms, userId, "301", 301);
  }

  /** A negative number is a duration out of range, while text that is no number is a format error. */
  lemma {:induction false} DurationFormat(waiting: map<int, string>, ms: seq<Machine>, userId: int)
    requires userId in waiting
    ensures DecideText(waiting, ms, userId, "-5").BadDuration?
    ensures DecideText(waiting, ms, userId, "ten").BadFormat?
  {
    assert ParseInt(Strip("-5")) == Some(-5) by {
      assert DecimalText(5) == "5";
      StripUnchanged("-5");
      ParseNegativeDigits("5");
    }
    assert ParseInt(Strip("ten")) == None by {
      StripUnchanged("ten");
      assert !IsDigitRun("ten");
    }
  }

  /** With distinct machine ids, a code the scan finds always collects its machine. */
  lemma {:induction false} FoundCodeCollects(waiting: map<int, string>, ms: seq<Machine>, userId: int, text: string)
    requires DistinctIds(ms)
    requires DecideText(waiting, ms, userId, text).Collect?
    ensures var a := DecideText(waiting, ms, userId, text);
      CollectCheck(ms, ms[a.index].id, a.code) == Collected
  {
    var a := DecideText(waiting, ms, userId, text);
    CollectSucceedsIff(ms, ms[a.index].id, a.code);
  }

  // ---------------------------------------------------------------------------
  // Scheduled notification
  // ---------------------------------------------------------------------------

  /** A `run_once` job: its delay and its data. */
  datatype Job = Job(delaySeconds: int, machineId: string, userId: int)

  /** The job a reservation schedules. */
  function ReservationJob(machineId: string, userId: int, minutes: int): Job {
    Job(minutes * 60, machineId, userId)
  }

  /** `send_machine_notification`'s guard: the machine exists, is in use, and by the job's user. */
  function ShouldNotify(ms: seq<Machine>, job: Job): (r: bool)
    ensures r <==> exists k ::
      && 0 <= k < |ms| && ms[k].id == job.machineId
      && (forall j :: 0 <= j < k ==> ms[j].id != job.machineId)
      && ms[k].status == InUse && ms[k].userId == Some(job.userId)
  {
    match GetMachineById(ms, job.machineId)
    case None => false
    case Some(m) => m.status == InUse && m.userId == Some(job.userId)
  }

  /** Right after a reservation, its job would notify, as long as the machine exists. */
  lemma {:induction false} NotifyAfterReserve(ms: seq<Machine>, machineId: string, userId: int, username: string, code: string,
                           now: int, minutes: int)
    ensures ShouldNotify(UseRows(ms, machineId, userId, username, code, now + minutes * 60),
                         ReservationJob(machineId, userId, minutes))
      <==> exists k :: 0 <= k < |ms| && ms[k].id == machineId
  {
    var used := UseRows(ms, machineId, userId, username, code, now + minutes * 60);
    IndexOfIdLayout(ms, used, machineId);
    match IndexOfId(ms, machineId)
    case None =>
      assert GetMachineById(used, machineId) == None;
    case Some(k) =>
      assert GetMachineById(used, machineId) == Some(used[k]);
      assert used[k].status == InUse && used[k].userId == Some(userId);
  }

  /** When the job fires, `minutes * 60` seconds on, the reserved machine is finished. */
  lemma {:induction false} JobFiresWhenFinished(ms: seq<Machine>, k: nat, userId: int, username: string, code: string,
                             now: int, minutes: int)
    requires k < |ms|
    ensures var job := ReservationJob(ms[k].id, userId, minutes);
      var m := UseRows(ms, ms[k].id, userId, username, code, now + minutes * 60)[k];
      && Classify(m, now + job.delaySeconds) == ShownFinished
      && m in CheckFinished(UseRows(ms, ms[k].id, userId, username, code, now + minutes * 60), now + job.delaySeconds)
  {
    var used := UseRows(ms, ms[k].id, userId, username, code, now + minutes * 60);
    assert used[k] in used;
  }

  /** A collected machine never triggers the notification of an earlier reservation. */
  lemma {:induction false} NoNotifyAfterCollect(ms: seq<Machine>, job: Job)
    ensures !ShouldNotify(FreeRows(ms, job.machineId), job)
  {
    IndexOfIdLayout(ms, FreeRows(ms, job.machineId), job.machineId);
  }

  /** A machine reserved again by someone else suppresses the earlier holder's notification. */
  lemma {:induction false} NoNotifyForNewHolder(ms: seq<Machine>, job: Job, userId: int, username: string, code: string, endTime: int)
    requires userId != job.userId
    ensures !ShouldNotify(UseRows(ms, job.machineId, userId, username, code, endTime), job)
  {
    IndexOfIdLayout(ms, UseRows(ms, job.machineId, userId, username, code, endTime), job.machineId);
  }

  /**
    No job is ever cancelled: if the same user collects and reserves the
    machine again, the first reservation's job still passes the guard and
    notifies at the first reservation's expiry.
   */
  lemma {:induction false} StaleJobFiresForSameUser(ms: seq<Machine>, k: nat, userId: int, username: string,
                                 code1: string, end1: int, code2: string, end2: int, minutes: int)
    requires k < |ms|
    ensures var id := ms[k].id;
      var again := UseRows(FreeRows(UseRows(ms, id, userId, username, code1, end1), id), id, userId, username, code2, end2);
      ShouldNotify(again, ReservationJob(id, userId, minutes))
  {
    var id := ms[k].id;
    var first := UseRows(ms, id, userId, username, code1, end1);
    var freed := FreeRows(first, id);
    var again := UseRows(freed, id, userId, username, code2, end2);
    IndexOfIdLayout(ms, first, id);
    IndexOfIdLayout(first, freed, id);
    IndexOfIdLayout(freed, again, id);
  }

  // ---------------------------------------------------------------------------
  // The bot's state
  // ---------------------------------------------------------------------------

  datatype Event = NowFree(machineId: string) | FinishedSoon(machineId: string)

  /** A message the bot sends. Menus, keyboards and Markdown are left out. */
  datatype Notice =
    | StatusReply(to: int, report: (seq<StatusLine>, seq<StatusLine>))
    | TimeMenu(to: int, machineId: string, buttons: seq<string>)
    | CustomTimePrompt(to: int, machineId: string)
    | ReservedReply(to: int, machineId: string, minutes: int, code: string)
    | InvalidDurationReply(to: int)
    | InvalidFormatReply(to: int)
    | InvalidCodeReply(to: int)
    | CollectReply(to: int, ok: bool, message: string)
    | ReadyReply(to: int, machineId: string, code: string)
    | Broadcast(recipients: seq<int>, event: Event)

  /** The chats `notify_all_users` writes to: every subscribed user, in file order. */
  function Recipients(us: seq<User>): (r: seq<int>)
    ensures |r| == |GetAllUsers(us)|
    ensures forall i :: 0 <= i < |r| ==> exists u :: u in us && u.subscribed && u.id == r[i]
  {
    var subscribed := GetAllUsers(us);
    var r := seq(|subscribed|, i requires 0 <= i < |subscribed| => subscribed[i].id);
    assert forall i :: 0 <= i < |r| ==> subscribed[i] in subscribed && r[i] == subscribed[i].id;
    r
  }

  /** A broadcast reaches every registered user, the holder or collector included. */
  lemma {:induction false} BroadcastReachesRegistered(us: seq<User>, userId: int)
    ensures userId in Recipients(us) <==> IsRegistered(us, userId)
  {
    var subscribed := GetAllUsers(us);
    if IsRegistered(us, userId) {
      var u :| u in subscribed && u.id == userId;
      var i :| 0 <= i < |subscribed| && subscribed[i] == u;
      assert Recipients(us)[i] == userId;
    }
    if userId in Recipients(us) {
      var i :| 0 <= i < |subscribed| && Recipients(us)[i] == userId;
      assert subscribed[i] in subscribed;
    }
  }

  class Bot {
    const store: Store
    /** `context.user_data['waiting_custom_time']`, per user. */
    var waitingCustomTime: map<int, string>
    /** Every job handed to the job queue, in order. */
    var jobs: seq<Job>
    /** Every message sent, in order. */
    var outbox: seq<Notice>

    constructor(store: Store)
      ensures this.store == store
      ensures waitingCustomTime == map[] && jobs == [] && outbox == []
    {
      this.store := store;
      waitingCustomTime := map[];
      jobs := [];
      outbox := [];
    }

    /** `/start`: registers the user. */
    method Start(userId: int, username: string)
      modifies store
      ensures store.users == AddUserRows(old(store.users), userId, username)
      ensures store.machines == old(store.machines)
    {
      store.AddUser(userId, username);
    }

    /** `start_machine`: reserves, tells the user the code, and schedules one job. */
    method StartMachine(machineId: string, userId: int, username: string, minutes: int, now: int)
      returns (code: string)
      modifies this, store
      ensures IsCode(code)
      ensures store.machines == UseRows(old(store.machines), machineId, userId, username, code, now + minutes * 60)
      ensures store.users == old(store.users)
      ensures jobs == old(jobs) + [ReservationJob(machineId, userId, minutes)]
      ensures outbox == old(outbox) + [ReservedReply(userId, machineId, minutes, code)]
      ensures waitingCustomTime == old(waitingCustomTime)
    {
      code := store.UseMachine(machineId, userId, username, minutes, now);
      outbox := outbox + [ReservedReply(userId, machineId, minutes, code)];
      jobs := jobs + [ReservationJob(machineId, userId, minutes)];
    }

    /** `button_handler`, for the callbacks that read or change the tables or the custom-time mode. */
    method ButtonHandler(data: string, userId: int, username: string, now: int) returns (ghost code: string)
      modifies this, store
      ensures store.users == old(store.users)
      ensures var c := ParseCallback(data);
        c.PickTime? ==>
          && IsCode(code)
          && store.machines == UseRows(old(store.machines), c.machineId, userId, username, code, now + c.minutes * 60)
          && jobs == old(jobs) + [ReservationJob(c.machineId, userId, c.minutes)]
          && outbox == old(outbox) + [ReservedReply(userId, c.machineId, c.minutes, code)]
          && waitingCustomTime == old(waitingCustomTime)
      ensures var c := ParseCallback(data);
        c.AskCustom? ==>
          && waitingCustomTime == old(waitingCustomTime)[userId := c.machineId]
          && outbox == old(outbox) + [CustomTimePrompt(userId, c.machineId)]
          && store.machines == old(store.machines) && jobs == old(jobs)
      ensures var c := ParseCallback(data);
        c.ShowStatus? ==>
          && outbox == old(outbox) + [StatusReply(userId, StatusReport(old(store.machines), now))]
          && store.machines == old(store.machines) && jobs == old(jobs)
          && waitingCustomTime == old(waitingCustomTime)
      ensures var c := ParseCallback(data);
        c.PickMachine? ==>
          && outbox == old(outbox) + (match GetMachineById(old(store.machines), c.machineId)
                                      case None => []
                                      case Some(m) => [TimeMenu(userId, c.machineId, TimeButtons(c.machineId, m.kind))])
          && store.machines == old(store.machines) && jobs == old(jobs)
          && waitingCustomTime == old(waitingCustomTime)
      ensures var c := ParseCallback(data);
        !(c.PickTime? || c.AskCustom? || c.ShowStatus? || c.PickMachine?) ==>
          && outbox == old(outbox)
          && store.machines == old(store.machines) && jobs == old(jobs)
          && waitingCustomTime == old(waitingCustomTime)
    {
      code := "";
      var c := ParseCallback(data);
      match c
      case PickTime(machineId, minutes) =>
        code := StartMachine(machineId, userId, username, minutes, now);
      case AskCustom(machineId) =>
        waitingCustomTime := waitingCustomTime[userId := machineId];
        outbox := outbox + [CustomTimePrompt(userId, machineId)];
      case ShowStatus =>
        outbox := outbox + [StatusReply(userId, StatusReport(store.machines, now))];
      case PickMachine(machineId) =>
        // An unknown id makes `show_time_options` fail before it sends anything.
        var machine := GetMachineById(store.machines, machineId);
        if machine.Some? {
          outbox := outbox + [TimeMenu(userId, machineId, TimeButtons(machineId, machine.value.kind))];
        }
      case _ =>
    }

    /**
      `handle_code_message`: a pending custom-time request makes the text a
      duration; otherwise it is a collection code, and a successful collection
      is announced to every subscribed user.
     */
    method HandleCodeMessage(text: string, userId: int, username: string, now: int) returns (ghost code: string)
      modifies this, store
      ensures store.users == old(store.users)
      ensures var a := DecideText(old(waitingCustomTime), old(store.machines), userId, text);
        (a.BadFormat? || a.BadDuration? || a.NoSuchCode?) ==>
          && store.machines == old(store.machines) && jobs == old(jobs)
          && waitingCustomTime == old(waitingCustomTime)
          && outbox == old(outbox) + [
               if a.BadFormat? then InvalidFormatReply(userId)
               else if a.BadDuration? then InvalidDurationReply(userId)
               else InvalidCodeReply(userId)]
      ensures var a := DecideText(old(waitingCustomTime), old(store.machines), userId, text);
        a.Reserve? ==>
          && IsCode(code)
          && waitingCustomTime == old(waitingCustomTime) - {userId}
          && store.machines == UseRows(old(store.machines), a.machineId, userId, username, code, now + a.minutes * 60)
          && jobs == old(jobs) + [ReservationJob(a.machineId, userId, a.minutes)]
          && outbox == old(outbox) + [ReservedReply(userId, a.machineId, a.minutes, code)]
      ensures var a := DecideText(old(waitingCustomTime), old(store.machines), userId, text);
        a.Collect? ==>
          var machineId := old(store.machines)[a.index].id;
          var outcome := CollectCheck(old(store.machines), machineId, a.code);
          && store.machines == (if outcome == Collected then FreeRows(old(store.machines), machineId) else old(store.machines))
          && jobs == old(jobs) && waitingCustomTime == old(waitingCustomTime)
          && outbox == old(outbox) + [CollectReply(userId, outcome == Collected, CollectMessage(outcome, machineId))]
                       + (if outcome == Collected then [Broadcast(Recipients(old(store.users)), NowFree(machineId))] else [])
    {
      code := "";
      var t := Strip(text);
      if userId in waitingCustomTime {
        var machineId := waitingCustomTime[userId];
        var parsed := ParseInt(t);
        if parsed.None? {
          outbox := outbox + [InvalidFormatReply(userId)];
          return;
        }
        var minutes := parsed.value;
        if minutes <= 0 || minutes > MaxCustomMinutes {
          outbox := outbox + [InvalidDurationReply(userId)];
          return;
        }
        waitingCustomTime := waitingCustomTime - {userId};
        code := StartMachine(machineId, userId, username, minutes, now);
        return;
      }
      var typed := Upper(t);
      var found := FindMachineWithCode(store.machines, typed);
      if found.None? {
        outbox := outbox + [InvalidCodeReply(userId)];
        return;
      }
      var machineId := store.machines[found.value].id;
      var ok, message := store.CollectMachine(machineId, typed);
      outbox := outbox + [CollectReply(userId, ok, message)];
      if ok {
        outbox := outbox + [Broadcast(Recipients(store.users), NowFree(machineId))];
      }
    }

    /** `send_machine_notification`: notifies the holder and everyone else, only if the guard holds. */
    method SendMachineNotification(job: Job)
      modifies this
      ensures jobs == old(jobs) && waitingCustomTime == old(waitingCustomTime)
      ensures outbox == old(outbox) +
        if ShouldNotify(store.machines, job)
        then [ReadyReply(job.userId, job.machineId, GetMachineById(store.machines, job.machineId).value.code),
              Broadcast(Recipients(store.users), FinishedSoon(job.machineId))]
        else []
    {
      var machine := GetMachineById(store.machines, job.machineId);
      if machine.Some? && machine.value.status == InUse && machine.value.userId == Some(job.userId) {
        outbox := outbox + [ReadyReply(job.userId, job.machineId, machine.value.code)];
        outbox := outbox + [Broadcast(Recipients(store.users), FinishedSoon(job.machineId))];
      }
    }
  }

  /**
    On the seeded table, WM1 reserved at second 1000 for 50 minutes shows 50
    minutes left, and typing its code back collects it and restores the seed.
   */
  lemma {:induction false} ReserveCollectOnSeed(code: string)
    requires IsCode(code)
    ensures var reserved := UseRows(Seed(), "WM1", 7, "ana", code, 1000 + 50 * 60);
      && Classify(reserved[0], 1000) == ShownInUse(50)
      && DecideText(map[], reserved, 7, code) == Collect(0, code)
      && CollectCheck(reserved, "WM1", code) == Collected
      && FreeRows(reserved, "WM1") == Seed()
  {
    SeedContents();
    SeedValid();
    var reserved := UseRows(Seed(), "WM1", 7, "ana", code, 1000 + 50 * 60);
    assert reserved[0].endTime == At(4000);
    CodeSurvivesNormalisation(code);
    assert HoldsCode(reserved[0], code);
    assert IndexOfCode(reserved, code) == Some(0);
    ReserveThenCollectRestores(Seed(), "WM1", 7, "ana", code, 1000 + 50 * 60);
    CollectSucceedsIff(reserved, "WM1", code);
  }
}
