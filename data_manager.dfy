/**
  The laundry room's two persisted tables: the machine table (one row per
  washer or dryer, in creation order) and the user table. The CSV files are
  modelled as in-memory sequences of rows held by a `Store` object; times are
  integer seconds and the clock is a parameter.
 */
module DataManager {
  import opened Options
  import opened Text
  import opened Sequences

  // ---------------------------------------------------------------------------
  // Configuration
  // ---------------------------------------------------------------------------

  const WashingMachines: nat := 4
  const Dryers: nat := 3
  const CodeLength: nat := 6
  /** `string.ascii_uppercase`: A to Z. */
  function AsciiUppercase(): string {
    seq(26, i requires 0 <= i < 26 => ('A' as int + i) as char)
  }

  /** `string.digits`: 0 to 9. */
  function AsciiDigits(): string {
    seq(10, i requires 0 <= i < 10 => ('0' as int + i) as char)
  }

  /** The characters `generate_code` draws from. */
  const CodeAlphabet: string := AsciiUppercase() + AsciiDigits()
  const UnknownName: string := "Unknown"

  // ---------------------------------------------------------------------------
  // Rows
  // ---------------------------------------------------------------------------

  datatype MachineType = WashingMachine | Dryer

  datatype Status = Free | InUse

  /** The `end_time` cell: empty, a parsed instant, or text that does not parse as an ISO 8601 instant. */
  datatype EndTime = NoEnd | At(seconds: int) | Unparsable

  /**
    A row of the machine table. `userId` is `None` for an empty cell; an empty
    `username` or `code` cell is the empty string.
   */
  datatype Machine = Machine(
    id: string,
    kind: MachineType,
    status: Status,
    userId: Option<int>,
    username: string,
    code: string,
    endTime: EndTime)

  /** A row of the user table. */
  datatype User = User(id: int, username: string, subscribed: bool)

  /** A row with every holder cell empty. */
  function FreeRow(id: string, kind: MachineType): Machine {
    Machine(id, kind, Free, None, "", "", NoEnd)
  }

  /** Python's `username or 'Unknown'`; a missing Telegram username is the empty string here. */
  function DisplayName(username: string): (name: string)
    ensures name != ""
    ensures username != "" ==> name == username
    ensures username == "" ==> name == UnknownName
  {
    if username == "" then UnknownName else username
  }

  predicate InAlphabet(code: string) {
    forall i :: 0 <= i < |code| ==> code[i] in CodeAlphabet
  }

  /** What `generate_code()` can return. */
  predicate IsCode(code: string) {
    |code| == CodeLength && InAlphabet(code)
  }

  /** A code character is an upper-case letter or a digit: `upper()` and `strip()` leave it alone. */
  lemma {:induction false} CodeCharIsPlain(c: char)
    requires c in CodeAlphabet
    ensures ('A' <= c <= 'Z' || '0' <= c <= '9') && UpperChar(c) == c && !IsSpace(c)
  {
    var i :| 0 <= i < |CodeAlphabet| && CodeAlphabet[i] == c;
    if i < 26 {
      assert c == AsciiUppercase()[i];
    } else {
      assert c == AsciiDigits()[i - 26];
    }
  }

  /** The consistency a row keeps between its status and its holder cells. */
  predicate RowValid(m: Machine) {
    && (m.status == Free ==> m.userId == None && m.username == "" && m.code == "" && m.endTime == NoEnd)
    && (m.status == InUse ==> m.userId.Some? && m.username != "" && IsCode(m.code) && m.endTime.At?)
  }

  predicate DistinctIds(ms: seq<Machine>) {
    forall i, j :: 0 <= i < j < |ms| ==> ms[i].id != ms[j].id
  }

  predicate TableValid(ms: seq<Machine>) {
    && (forall k :: 0 <= k < |ms| ==> RowValid(ms[k]))
    && DistinctIds(ms)
  }

  /** Same row count, and every row keeps its id and type in its place. */
  predicate SameLayout(ms: seq<Machine>, ms': seq<Machine>) {
    && |ms'| == |ms|
    && forall k :: 0 <= k < |ms| ==> ms'[k].id == ms[k].id && ms'[k].kind == ms[k].kind
  }

  // ---------------------------------------------------------------------------
  // init_csv_files: the seeded machine table
  // ---------------------------------------------------------------------------

  /** `count` free rows named `prefix1`, `prefix2`, ... */
  function SeedRows(prefix: string, kind: MachineType, count: nat): seq<Machine> {
    seq(count, k requires 0 <= k < count => FreeRow(prefix + DecimalText(k + 1), kind))
  }

  function Seed(): seq<Machine> {
    SeedRows("WM", WashingMachine, WashingMachines) + SeedRows("D", Dryer, Dryers)
  }

  /** Seeding yields WM1..WM4 then D1..D3, all free. */
  lemma {:induction false} SeedContents()
    ensures Seed() == [
      FreeRow("WM1", WashingMachine), FreeRow("WM2", WashingMachine),
      FreeRow("WM3", WashingMachine), FreeRow("WM4", WashingMachine),
      FreeRow("D1", Dryer), FreeRow("D2", Dryer), FreeRow("D3", Dryer)]
  {
    var w := SeedRows("WM", WashingMachine, WashingMachines);
    var d := SeedRows("D", Dryer, Dryers);
    assert "WM" + DecimalText(1) == "WM1" && "WM" + DecimalText(2) == "WM2";
    assert "WM" + DecimalText(3) == "WM3" && "WM" + DecimalText(4) == "WM4";
    assert "D" + DecimalText(1) == "D1" && "D" + DecimalText(2) == "D2" && "D" + DecimalText(3) == "D3";
    assert w[0] == FreeRow("WM1", WashingMachine) && w[1] == FreeRow("WM2", WashingMachine);
    assert w[2] == FreeRow("WM3", WashingMachine) && w[3] == FreeRow("WM4", WashingMachine);
    assert d[0] == FreeRow("D1", Dryer) && d[1] == FreeRow("D2", Dryer) && d[2] == FreeRow("D3", Dryer);
  }

  /** The seeded table is valid: free rows with distinct ids (a one-digit suffix tells rows of one type apart). */
  lemma {:induction false} SeedValid()
    ensures TableValid(Seed())
  {
    var ms := Seed();
    forall i, j | 0 <= i < j < |ms| ensures ms[i].id != ms[j].id {
      if j < WashingMachines {
        assert ms[i].id == "WM" + [DigitChar(i + 1)] && ms[j].id == "WM" + [DigitChar(j + 1)];
        assert ms[i].id[2] != ms[j].id[2];
      } else if i >= WashingMachines {
        assert ms[i].id == "D" + [DigitChar(i - WashingMachines + 1)];
        assert ms[j].id == "D" + [DigitChar(j - WashingMachines + 1)];
        assert ms[i].id[1] != ms[j].id[1];
      } else {
        assert ms[i].id[0] != ms[j].id[0];
      }
    }
  }

  // ---------------------------------------------------------------------------
  // Queries
  // ---------------------------------------------------------------------------

  /** The position of the first row with the given id. */
  function IndexOfId(ms: seq<Machine>, id: string): (r: Option<nat>)
    ensures r.Some? ==> r.value < |ms| && ms[r.value].id == id
    ensures r.Some? ==> forall j :: 0 <= j < r.value ==> ms[j].id != id
    ensures r.None? ==> forall j :: 0 <= j < |ms| ==> ms[j].id != id
  {
    if ms == [] then None
    else if ms[0].id == id then Some(0)
    else match IndexOfId(ms[1..], id)
      case None => None
      case Some(k) => Some(k + 1)
  }

  /** `get_machine_by_id`: the first row with the given id, if any. */
  function GetMachineById(ms: seq<Machine>, id: string): (r: Option<Machine>)
    ensures r.None? <==> forall k :: 0 <= k < |ms| ==> ms[k].id != id
    ensures r.Some? ==> r.value.id == id && r.value in ms
    ensures r.Some? ==> exists k :: 0 <= k < |ms| && r.value == ms[k] && forall j :: 0 <= j < k ==> ms[j].id != id
  {
    match IndexOfId(ms, id)
    case None => None
    case Some(k) => Some(ms[k])
  }

  /** Tables with the same ids in the same places agree on where an id first occurs. */
  lemma {:induction false} IndexOfIdLayout(ms: seq<Machine>, ms': seq<Machine>, id: string)
    requires SameLayout(ms, ms')
    ensures IndexOfId(ms', id) == IndexOfId(ms, id)
  {
    if ms != [] && ms[0].id != id {
      IndexOfIdLayout(ms[1..], ms'[1..], id);
    }
  }

  /** `get_all_users`: the subscribed rows, in file order. */
  function GetAllUsers(us: seq<User>): (r: seq<User>)
    ensures forall u :: u in r <==> u in us && u.subscribed
  {
    Filter(us, (u: User) => u.subscribed)
  }

  // ---------------------------------------------------------------------------
  // Table transformations
  // ---------------------------------------------------------------------------

  /** The machine table after `use_machine`: each row with the id is taken over by the user. */
  function UseRows(ms: seq<Machine>, machineId: string, userId: int, username: string, code: string, endTime: int)
    : (r: seq<Machine>)
    ensures SameLayout(ms, r)
    ensures forall k :: 0 <= k < |ms| && ms[k].id != machineId ==> r[k] == ms[k]
    ensures forall k :: 0 <= k < |ms| && ms[k].id == machineId ==>
      && r[k].status == InUse
      && r[k].userId == Some(userId)
      && r[k].username == DisplayName(username)
      && r[k].code == code
      && r[k].endTime == At(endTime)
  {
    seq(|ms|, k requires 0 <= k < |ms| =>
      if ms[k].id == machineId
      then Machine(machineId, ms[k].kind, InUse, Some(userId), DisplayName(username), code, At(endTime))
      else ms[k])
  }

  /** The machine table after a successful `collect_machine`: each row with the id is emptied. */
  function FreeRows(ms: seq<Machine>, machineId: string): (r: seq<Machine>)
    ensures SameLayout(ms, r)
    ensures forall k :: 0 <= k < |ms| && ms[k].id != machineId ==> r[k] == ms[k]
    ensures forall k :: 0 <= k < |ms| && ms[k].id == machineId ==> r[k] == FreeRow(machineId, ms[k].kind)
  {
    seq(|ms|, k requires 0 <= k < |ms| =>
      if ms[k].id == machineId then FreeRow(machineId, ms[k].kind) else ms[k])
  }

  /** How `collect_machine` judges a request, checked in this order. */
  datatype CollectOutcome = Collected | NotFound | NotInUse | WrongCode

  function CollectCheck(ms: seq<Machine>, machineId: string, code: string): (r: CollectOutcome)
    ensures r == NotFound <==> forall k :: 0 <= k < |ms| ==> ms[k].id != machineId
    ensures r != NotFound ==> exists k ::
      && 0 <= k < |ms| && ms[k].id == machineId
      && (forall j :: 0 <= j < k ==> ms[j].id != machineId)
      && (r == NotInUse <==> ms[k].status != InUse)
      && (r == Collected <==> ms[k].status == InUse && ms[k].code == code)
  {
    match GetMachineById(ms, machineId)
    case None => NotFound
    case Some(m) =>
      if m.status != InUse then NotInUse
      else if m.code != code then WrongCode
      else Collected
  }

  /** The message `collect_machine` returns beside its success flag. */
  function CollectMessage(outcome: CollectOutcome, machineId: string): string {
    match outcome
    case NotFound => "Machine not found."
    case NotInUse => "This machine is not currently in use."
    case WrongCode => "Incorrect code. Please check and try again."
    case Collected => "Machine " + machineId + " is now free. Thank you!"
  }

  /** The four outcomes of `collect_machine` come with four different messages. */
  lemma {:induction false} CollectMessagesDistinct(a: CollectOutcome, b: CollectOutcome, machineId: string)
    requires a != b
    ensures CollectMessage(a, machineId) != CollectMessage(b, machineId)
  {
    var ma := CollectMessage(a, machineId);
    var mb := CollectMessage(b, machineId);
    if a == Collected || b == Collected {
      // the success message alone ends with '!'
      assert ma[|ma| - 1] != mb[|mb| - 1];
    } else {
      assert ma[0] != mb[0] || |ma| != |mb|;
    }
  }

  /** The user table after `add_user`: the old rows are kept, at most one is appended, and the id ends up registered. */
  function AddUserRows(us: seq<User>, userId: int, username: string): (r: seq<User>)
    ensures us <= r && |r| <= |us| + 1
    ensures IsRegistered(r, userId)
    ensures IsRegistered(us, userId) ==> r == us
    ensures !IsRegistered(us, userId) ==> |r| == |us| + 1 && r[|us|] == User(userId, DisplayName(username), true)
  {
    if IsRegistered(us, userId) then us
    else
      var row := User(userId, DisplayName(username), true);
      assert (us + [row])[|us|] == row;
      us + [row]
  }

  predicate IsRegistered(us: seq<User>, userId: int) {
    exists u :: u in GetAllUsers(us) && u.id == userId
  }

  /** How many subscribed rows carry the id. */
  function Registrations(us: seq<User>, userId: int): nat {
    |Filter(us, (u: User) => u.subscribed && u.id == userId)|
  }

  // ---------------------------------------------------------------------------
  // Status classification and expiry
  // ---------------------------------------------------------------------------

  /** How `get_status_message` shows one machine. */
  datatype Shown = ShownFree | ShownInUse(minutesLeft: nat) | ShownInUseNoTime | ShownFinished

  /** `check_finished_machines`' test on one row. */
  predicate IsFinished(m: Machine, now: int) {
    m.status == InUse && m.endTime.At? && now >= m.endTime.seconds
  }

  /**
    The per-machine classification of `get_status_message` at time `now`:
    free unless in use with an `end_time`; in use with whole minutes left
    while time remains; finished once it has run out.
   */
  function Classify(m: Machine, now: int): (s: Shown)
    ensures s == ShownFree <==> !(m.status == InUse && m.endTime != NoEnd)
    ensures s.ShownInUse? <==> m.status == InUse && m.endTime.At? && m.endTime.seconds > now
    ensures s.ShownInUse? ==> s.minutesLeft * 60 <= m.endTime.seconds - now < s.minutesLeft * 60 + 60
    ensures s == ShownInUseNoTime <==> m.status == InUse && m.endTime == Unparsable
    ensures s == ShownFinished <==> IsFinished(m, now)
  {
    if m.status == InUse && m.endTime != NoEnd then
      if m.endTime.At? then
        var left := m.endTime.seconds - now;
        if left > 0 then ShownInUse(left / 60) else ShownFinished
      else
        ShownInUseNoTime
    else
      ShownFree
  }

  datatype StatusLine = StatusLine(machineId: string, shown: Shown)

  function OfKind(ms: seq<Machine>, kind: MachineType): (r: seq<Machine>)
    ensures forall m :: m in r <==> m in ms && m.kind == kind
  {
    Filter(ms, (m: Machine) => m.kind == kind)
  }

  /** One section of the status message: a line per machine of the kind, in table order. */
  function StatusSection(ms: seq<Machine>, kind: MachineType, now: int): (r: seq<StatusLine>)
    ensures |r| == |OfKind(ms, kind)|
    ensures forall i :: 0 <= i < |r| ==>
      var m := OfKind(ms, kind)[i]; r[i] == StatusLine(m.id, Classify(m, now))
  {
    var rows := OfKind(ms, kind);
    seq(|rows|, i requires 0 <= i < |rows| => StatusLine(rows[i].id, Classify(rows[i], now)))
  }

  /** The status message's two sections: washing machines, then dryers. */
  function StatusReport(ms: seq<Machine>, now: int): (seq<StatusLine>, seq<StatusLine>) {
    (StatusSection(ms, WashingMachine, now), StatusSection(ms, Dryer, now))
  }

  /** `check_finished_machines`: the in-use rows whose end time has passed, in table order. */
  function CheckFinished(ms: seq<Machine>, now: int): (r: seq<Machine>)
    ensures forall m :: m in r <==> m in ms && IsFinished(m, now)
  {
    Filter(ms, (m: Machine) => IsFinished(m, now))
  }

  // ---------------------------------------------------------------------------
  // generate_code
  // ---------------------------------------------------------------------------

  /** `generate_code(length)`: any text of the length over A-Z and 0-9. */
  method GenerateCode(length: nat := CodeLength) returns (code: string)
    ensures |code| == length && InAlphabet(code)
  {
    code := "";
    while |code| < length
      invariant |code| <= length && InAlphabet(code)
    {
      assert CodeAlphabet[0] in CodeAlphabet;
      var c :| c in CodeAlphabet;
      code := code + [c];
    }
  }

  // ---------------------------------------------------------------------------
  // The persisted tables
  // ---------------------------------------------------------------------------

  class Store {
    var machines: seq<Machine>
    var users: seq<User>

    /**
      `init_csv_files`: a table whose file already exists is kept as it is;
      a missing machine table is seeded, a missing user table starts empty.
     */
    constructor(existingMachines: Option<seq<Machine>>, existingUsers: Option<seq<User>>)
      ensures machines == if existingMachines.Some? then existingMachines.value else Seed()
      ensures users == if existingUsers.Some? then existingUsers.value else []
    {
      if existingMachines.Some? {
        machines := existingMachines.value;
      } else {
        var rows: seq<Machine> := [];
        for i := 1 to WashingMachines + 1
          invariant rows == SeedRows("WM", WashingMachine, i - 1)
        {
          rows := rows + [FreeRow("WM" + DecimalText(i), WashingMachine)];
        }
        var dryers: seq<Machine> := [];
        for i := 1 to Dryers + 1
          invariant dryers == SeedRows("D", Dryer, i - 1)
        {
          dryers := dryers + [FreeRow("D" + DecimalText(i), Dryer)];
        }
        machines := rows + dryers;
      }
      users := if existingUsers.Some? then existingUsers.value else [];
    }

    /** `add_user`: appends a subscribed row unless a subscribed row already has the id. */
    method AddUser(userId: int, username: string)
      modifies this
      ensures users == AddUserRows(old(users), userId, username)
      ensures machines == old(machines)
    {
      var subscribed := GetAllUsers(users);
      for i := 0 to |subscribed|
        invariant forall k :: 0 <= k < i ==> subscribed[k].id != userId
      {
        if subscribed[i].id == userId {
          assert subscribed[i] in subscribed;
          return;
        }
      }
      users := users + [User(userId, DisplayName(username), true)];
    }

    /**
      `use_machine`: draws a fresh code and rewrites every row, taking over
      each row with the id whatever its status. An unknown id changes nothing
      but still yields a code.
     */
    method UseMachine(machineId: string, userId: int, username: string, durationMinutes: int, now: int)
      returns (code: string)
      modifies this
      ensures IsCode(code)
      ensures machines == UseRows(old(machines), machineId, userId, username, code, now + durationMinutes * 60)
      ensures users == old(users)
    {
      code := GenerateCode();
      var endTime := now + durationMinutes * 60;
      var rows: seq<Machine> := [];
      for i := 0 to |machines|
        invariant |rows| == i
        invariant forall k :: 0 <= k < i && machines[k].id != machineId ==> rows[k] == machines[k]
        invariant forall k :: 0 <= k < i && machines[k].id == machineId ==>
          rows[k] == Machine(machineId, machines[k].kind, InUse, Some(userId), DisplayName(username), code, At(endTime))
      {
        var m := machines[i];
        if m.id == machineId {
          rows := rows + [Machine(machineId, m.kind, InUse, Some(userId), DisplayName(username), code, At(endTime))];
        } else {
          rows := rows + [m];
        }
      }
      machines := rows;
    }

    /**
      `collect_machine`: looks the id up, refuses an unknown id, a machine not
      in use or a code that differs (case-sensitively), and otherwise rewrites
      every row, emptying each row with the id.
     */
    method CollectMachine(machineId: string, code: string) returns (ok: bool, message: string)
      modifies this
      ensures ok == (CollectCheck(old(machines), machineId, code) == Collected)
      ensures message == CollectMessage(CollectCheck(old(machines), machineId, code), machineId)
      ensures machines == if ok then FreeRows(old(machines), machineId) else old(machines)
      ensures users == old(users)
    {
      var machine := GetMachineById(machines, machineId);
      if machine.None? {
        return false, CollectMessage(NotFound, machineId);
      }
      if machine.value.status != InUse {
        return false, CollectMessage(NotInUse, machineId);
      }
      if machine.value.code != code {
        return false, CollectMessage(WrongCode, machineId);
      }
      var rows: seq<Machine> := [];
      for i := 0 to |machines|
        invariant |rows| == i
        invariant forall k :: 0 <= k < i && machines[k].id != machineId ==> rows[k] == machines[k]
        invariant forall k :: 0 <= k < i && machines[k].id == machineId ==> rows[k] == FreeRow(machineId, machines[k].kind)
      {
        var m := machines[i];
        if m.id == machineId {
          rows := rows + [FreeRow(machineId, m.kind)];
        } else {
          rows := rows + [m];
        }
      }
      machines := rows;
      return true, CollectMessage(Collected, machineId);
    }
  }

  // ---------------------------------------------------------------------------
  // Properties of the tables
  // ---------------------------------------------------------------------------

  /** Reserving keeps every row consistent, provided the code is one `generate_code` can return. */
  lemma {:induction false} UsePreservesValid(ms: seq<Machine>, machineId: string, userId: int, username: string, code: string, endTime: int)
    requires TableValid(ms) && IsCode(code)
    ensures TableValid(UseRows(ms, machineId, userId, username, code, endTime))
  {
  }

  /** Collecting keeps every row consistent. */
  lemma {:induction false} FreePreservesValid(ms: seq<Machine>, machineId: string)
    requires TableValid(ms)
    ensures TableValid(FreeRows(ms, machineId))
  {
  }

  /** With distinct ids, `collect_machine` succeeds exactly when some row has the id, is in use and holds the code. */
  lemma {:induction false} CollectSucceedsIff(ms: seq<Machine>, machineId: string, code: string)
    requires DistinctIds(ms)
    ensures CollectCheck(ms, machineId, code) == Collected <==>
      exists k :: 0 <= k < |ms| && ms[k].id == machineId && ms[k].status == InUse && ms[k].code == code
  {
    var idx := IndexOfId(ms, machineId);
    if k :| 0 <= k < |ms| && ms[k].id == machineId && ms[k].status == InUse && ms[k].code == code {
      assert idx.Some?;
      assert idx.value == k;
    }
  }

  /** A reservation followed by a collection with the code it returned succeeds and frees the machine. */
  lemma {:induction false} ReserveThenCollect(ms: seq<Machine>, machineId: string, userId: int, username: string, code: string, endTime: int)
    requires exists k :: 0 <= k < |ms| && ms[k].id == machineId
    ensures var used := UseRows(ms, machineId, userId, username, code, endTime);
      && CollectCheck(used, machineId, code) == Collected
      && SameLayout(ms, FreeRows(used, machineId))
  {
    var used := UseRows(ms, machineId, userId, username, code, endTime);
    IndexOfIdLayout(ms, used, machineId);
  }

  /** `use_machine` with an id no row has rewrites the table unchanged. */
  lemma {:induction false} UseUnknownIdKeepsTable(ms: seq<Machine>, machineId: string, userId: int, username: string, code: string, endTime: int)
    requires GetMachineById(ms, machineId) == None
    ensures UseRows(ms, machineId, userId, username, code, endTime) == ms
  {
    var r := UseRows(ms, machineId, userId, username, code, endTime);
    assert forall k :: 0 <= k < |ms| ==> r[k] == ms[k];
  }

  /** Reserving a free machine and collecting it with the returned code restores the table exactly. */
  lemma {:induction false} ReserveThenCollectRestores(ms: seq<Machine>, machineId: string, userId: int, username: string, code: string, endTime: int)
    requires TableValid(ms)
    requires forall k :: 0 <= k < |ms| && ms[k].id == machineId ==> ms[k].status == Free
    ensures FreeRows(UseRows(ms, machineId, userId, username, code, endTime), machineId) == ms
  {
    var r := FreeRows(UseRows(ms, machineId, userId, username, code, endTime), machineId);
    forall k | 0 <= k < |ms| ensures r[k] == ms[k] {
      if ms[k].id == machineId {
        assert RowValid(ms[k]);
      }
    }
  }

  /**
    `use_machine` does not check that the machine is free: reserving an
    in-use machine again hands it to the new user, and the previous holder's
    code no longer releases it.
   */
  lemma {:induction false} ReserveOverwritesHolder(ms: seq<Machine>, k: nat, userId: int, username: string, code: string, endTime: int)
    requires k < |ms| && DistinctIds(ms) && ms[k].status == InUse && ms[k].code != code
    ensures var used := UseRows(ms, ms[k].id, userId, username, code, endTime);
      && used[k].userId == Some(userId)
      && CollectCheck(used, ms[k].id, ms[k].code) == WrongCode
  {
    var used := UseRows(ms, ms[k].id, userId, username, code, endTime);
    IndexOfIdLayout(ms, used, ms[k].id);
    assert IndexOfId(ms, ms[k].id) == Some(k);
  }

  /** A machine counts as finished in `check_finished_machines` exactly when the status message shows it finished. */
  lemma {:induction false} FinishedAgreesWithStatus(ms: seq<Machine>, now: int)
    ensures forall m :: m in CheckFinished(ms, now) <==> m in ms && Classify(m, now) == ShownFinished
  {
  }

  /** `check_finished_machines` keeps table order: the finished rows of a split table are those of each part, in turn. */
  lemma {:induction false} CheckFinishedInOrder(a: seq<Machine>, b: seq<Machine>, now: int)
    ensures CheckFinished(a + b, now) == CheckFinished(a, now) + CheckFinished(b, now)
  {
    FilterAppend(a, b, (m: Machine) => IsFinished(m, now));
  }

  /** Every machine appears in exactly one of the status message's two sections. */
  lemma {:induction false} StatusReportCoversTable(ms: seq<Machine>, now: int)
    ensures |StatusReport(ms, now).0| + |StatusReport(ms, now).1| == |ms|
    ensures multiset(OfKind(ms, WashingMachine)) + multiset(OfKind(ms, Dryer)) == multiset(ms)
  {
    FilterComplement(ms, (m: Machine) => m.kind == WashingMachine, (m: Machine) => m.kind == Dryer);
    KindsPartition(ms);
  }

  /** Each row is of exactly one kind, so the two kind filters split the table. */
  lemma {:induction false} KindsPartition(ms: seq<Machine>)
    ensures multiset(OfKind(ms, WashingMachine)) + multiset(OfKind(ms, Dryer)) == multiset(ms)
  {
    if ms != [] {
      KindsPartition(ms[1..]);
      assert ms == [ms[0]] + ms[1..];
    }
  }

  /** A subscribed id is registered exactly when it has at least one subscribed row. */
  lemma {:induction false} RegisteredIffCounted(us: seq<User>, userId: int)
    ensures IsRegistered(us, userId) <==> Registrations(us, userId) > 0
  {
    var p := (u: User) => u.subscribed && u.id == userId;
    var f := Filter(us, p);
    if IsRegistered(us, userId) {
      var u :| u in GetAllUsers(us) && u.id == userId;
      var k :| 0 <= k < |us| && us[k] == u;
      assert p(us[k]) && us[k] in f;
    }
    if |f| > 0 {
      assert f[0] in us && p(f[0]);
      assert f[0] in GetAllUsers(us);
    }
  }

  /**
    `add_user` is idempotent: a second registration under the same id changes
    nothing, the id ends up with exactly one subscribed row unless it already
    had some, and no other id's rows change.
   */
  lemma {:induction false} AddUserIdempotent(us: seq<User>, userId: int, name1: string, name2: string, other: int)
    requires other != userId
    ensures AddUserRows(AddUserRows(us, userId, name1), userId, name2) == AddUserRows(us, userId, name1)
    ensures Registrations(AddUserRows(us, userId, name1), userId) ==
      if Registrations(us, userId) == 0 then 1 else Registrations(us, userId)
    ensures Registrations(AddUserRows(us, userId, name1), other) == Registrations(us, other)
  {
    var added := AddUserRows(us, userId, name1);
    var row := User(userId, DisplayName(name1), true);
    RegisteredIffCounted(us, userId);
    if !IsRegistered(us, userId) {
      FilterAppend(us, [row], (u: User) => u.subscribed && u.id == userId);
      FilterAppend(us, [row], (u: User) => u.subscribed && u.id == other);
      assert row in GetAllUsers(added);
    }
  }
}
