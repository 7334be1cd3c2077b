/**
 The derivation rules `convert_row` applies, in order, to a renamed working row. Each rule is a
 pure function from the row before to the row after; the frame of each rule (which keys it may
 change) is part of its contract.
 */
module Rules {
  import opened Cells
  import opened Tables

  const TypeKey: Key := Str("Type")
  const FromKey: Key := Str("From")
  const ToKey: Key := Str("To")
  const TotalTimeKey: Key := Str("Total Time")
  const SeTimeKey: Key := Str("SE Time")
  const PicNameKey: Key := Str("PIC Name")
  const PicTimeKey: Key := Str("PIC Time")
  const SpicTimeKey: Key := Str("SPIC Time")
  const PicusTimeKey: Key := Str("PICUS Time")
  const DualTimeKey: Key := Str("Dual Time")
  /** Read as the symbol `:supervision`: renaming never produces this key, only passes it through. */
  const SupervisionKey: Key := Sym("supervision")

  /** `AIRCRAFT_TYPE_MAPPING[v]`: the short code of a known type name, nil for anything else. */
  function TypeCode(v: Value): (code: Value)
    ensures v.Text? && v.text in AircraftTypeMapping ==> code.Text? && code.text == AircraftTypeMapping[v.text]
    ensures code == Nil || (code.Text? && code.text in AircraftTypeMapping.Values)
    ensures code != Nil <==> v.Text? && v.text in AircraftTypeMapping
  {
    if v.Text? && v.text in AircraftTypeMapping then Text(AircraftTypeMapping[v.text]) else Nil
  }

  /** `AERODROME_CODE_MAPPING[v] || v`: the translated code of a known aerodrome, else `v` itself. */
  function AerodromeCode(v: Value): (code: Value)
    ensures v.Text? && v.text in AerodromeCodeMapping ==> code == Text(AerodromeCodeMapping[v.text])
    ensures code == v || (code.Text? && code.text in AerodromeCodeMapping.Values)
    ensures !(v.Text? && v.text in AerodromeCodeMapping) ==> code == v
    ensures code.Text? && code.text in AerodromeCodeMapping ==> code == v
  {
    AerodromeTargetsAreNotSources();
    if v.Text? && v.text in AerodromeCodeMapping then Text(AerodromeCodeMapping[v.text]) else v
  }

  /**
   `update_aircraft_type!`: a present, non-nil type is replaced by its short code, and by nil when
   the table does not know it; an absent or nil type is left alone.
   */
  function UpdateAircraftType(row: Row): (r: Row)
    ensures forall k | k != TypeKey :: Get(r, k) == Get(row, k)
    ensures Get(row, TypeKey) == Nil ==> r == row
    ensures forall name :: Get(row, TypeKey) == Text(name) && name in AircraftTypeMapping ==>
              Get(r, TypeKey) == Text(AircraftTypeMapping[name])
    ensures Truthy(Get(row, TypeKey)) && !(Get(row, TypeKey).Text? && Get(row, TypeKey).text in AircraftTypeMapping) ==>
              TypeKey in r && r[TypeKey] == Nil
  {
    var t := Get(row, TypeKey);
    if Truthy(t) then row[TypeKey := TypeCode(t)] else row
  }

  /**
   `update_aerodrom_code!`: `From` and `To` are each replaced by their translation when the table
   has one and keep their value otherwise; both keys are stored afterwards.
   */
  function UpdateAerodromeCodes(row: Row): (r: Row)
    ensures forall k | k != FromKey && k != ToKey :: Get(r, k) == Get(row, k)
    ensures forall code :: Get(row, FromKey) == Text(code) && code in AerodromeCodeMapping ==>
              Get(r, FromKey) == Text(AerodromeCodeMapping[code])
    ensures !(Get(row, FromKey).Text? && Get(row, FromKey).text in AerodromeCodeMapping) ==>
              Get(r, FromKey) == Get(row, FromKey)
    ensures forall code :: Get(row, ToKey) == Text(code) && code in AerodromeCodeMapping ==>
              Get(r, ToKey) == Text(AerodromeCodeMapping[code])
    ensures !(Get(row, ToKey).Text? && Get(row, ToKey).text in AerodromeCodeMapping) ==>
              Get(r, ToKey) == Get(row, ToKey)
  {
    var withFrom := row[FromKey := AerodromeCode(Get(row, FromKey))];
    withFrom[ToKey := AerodromeCode(Get(withFrom, ToKey))]
  }

  /** `add_single_engine_time!`: `SE Time` becomes a verbatim copy of `Total Time`. */
  function AddSingleEngineTime(row: Row): (r: Row)
    ensures Get(r, SeTimeKey) == Get(row, TotalTimeKey)
    ensures forall k | k != SeTimeKey :: Get(r, k) == Get(row, k)
  {
    row[SeTimeKey := Get(row, TotalTimeKey)]
  }

  /**
   `add_default_empty_values!`: the four unused time columns become "0:00" and the two IFR counters
   become the integer 0, whatever they held; nothing else changes. The body is the loop over
   `AdditionalEmptyHeaders` unrolled, one assignment per entry in table order.
   */
  function AddDefaultEmptyValues(row: Row): (r: Row)
    ensures Get(r, Str("ME Time")) == ZeroTime && Get(r, Str("MP Time")) == ZeroTime
    ensures Get(r, Str("Copi Time")) == ZeroTime && Get(r, Str("Instructor Time")) == ZeroTime
    ensures Get(r, Str("IFR Approaches")) == Num(0) && Get(r, Str("IFR Departures")) == Num(0)
    ensures forall k | k !in {Str("ME Time"), Str("MP Time"), Str("Copi Time"), Str("Instructor Time"),
                              Str("IFR Approaches"), Str("IFR Departures")} :: Get(r, k) == Get(row, k)
  {
    var d := AdditionalEmptyHeaders;
    row[Str(d[0].0) := d[0].1][Str(d[1].0) := d[1].1][Str(d[2].0) := d[2].1]
       [Str(d[3].0) := d[3].1][Str(d[4].0) := d[4].1][Str(d[5].0) := d[5].1]
  }

  /** The pilot's role on a flight, as `add_pic_times!` tells it apart. */
  datatype Role =
    | Student               // someone else was pilot in command
    | SupervisedByExaminer  // under supervision, the examiner on board: full PIC time
    | SupervisedPicus       // under supervision otherwise: PIC under supervision
    | SoloPic               // pilot in command, unsupervised

  /**
   The role a row describes. The three conditions are tried in the source's order; the first that
   holds decides.
   */
  function RoleOf(row: Row, userName: string, dpeName: string): (role: Role)
    ensures role == Student <==> Get(row, PicNameKey) != Text(userName) && Get(row, PicNameKey) != Text(dpeName)
    ensures role == SupervisedByExaminer <==>
              Get(row, PicNameKey) == Text(dpeName) && Get(row, SupervisionKey) == Text("yes")
    ensures role == SupervisedPicus <==>
              Get(row, PicNameKey) == Text(userName) && Get(row, PicNameKey) != Text(dpeName)
              && Get(row, SupervisionKey) == Text("yes")
    ensures role == SoloPic <==>
              (Get(row, PicNameKey) == Text(userName) || Get(row, PicNameKey) == Text(dpeName))
              && Get(row, SupervisionKey) != Text("yes")
  {
    var pic := Get(row, PicNameKey);
    if pic != Text(userName) && pic != Text(dpeName) then Student
    else if Get(row, SupervisionKey) == Text("yes") then
      (if pic == Text(dpeName) then SupervisedByExaminer else SupervisedPicus)
    else SoloPic
  }

  /** The role reads nothing but the pilot-in-command name and the supervision flag. */
  lemma RoleOfReadsNameAndSupervision(a: Row, b: Row, userName: string, dpeName: string)
    requires Get(a, PicNameKey) == Get(b, PicNameKey) && Get(a, SupervisionKey) == Get(b, SupervisionKey)
    ensures RoleOf(a, userName, dpeName) == RoleOf(b, userName, dpeName)
  {
  }

  /** The four time columns `add_pic_times!` writes. */
  datatype PicTimes = PicTimes(pic: Value, spic: Value, picus: Value, dual: Value)

  /** The times a row of `row` reads back from its four time columns. */
  function TimesOf(row: Row): PicTimes
  {
    PicTimes(Get(row, PicTimeKey), Get(row, SpicTimeKey), Get(row, PicusTimeKey), Get(row, DualTimeKey))
  }

  /** Which column a flight's total time is credited to, per role; the other three get "0:00". */
  function Credit(role: Role, total: Value): (t: PicTimes)
    ensures t.pic in {total, ZeroTime} && t.spic in {total, ZeroTime} && t.picus in {total, ZeroTime}
    ensures t.dual == t.spic
    ensures total != ZeroTime ==>
              && (t.pic == total <==> role == SupervisedByExaminer || role == SoloPic)
              && (t.spic == total <==> role == Student)
              && (t.picus == total <==> role == SupervisedPicus)
  {
    match role
    case Student => PicTimes(ZeroTime, total, ZeroTime, total)
    case SupervisedByExaminer => PicTimes(total, ZeroTime, ZeroTime, ZeroTime)
    case SupervisedPicus => PicTimes(ZeroTime, ZeroTime, total, ZeroTime)
    case SoloPic => PicTimes(total, ZeroTime, ZeroTime, ZeroTime)
  }

  /**
   `add_pic_times!`: the four time columns are always written, with the flight's total time
   credited according to the pilot's role; no other key changes.
   */
  function AddPicTimes(row: Row, userName: string, dpeName: string): (r: Row)
    ensures forall k | k !in {PicTimeKey, SpicTimeKey, PicusTimeKey, DualTimeKey} :: Get(r, k) == Get(row, k)
    ensures TimesOf(r) == Credit(RoleOf(row, userName, dpeName), Get(row, TotalTimeKey))
  {
    var total := Get(row, TotalTimeKey);
    if Get(row, PicNameKey) != Text(userName) && Get(row, PicNameKey) != Text(dpeName) then
      row[SpicTimeKey := total][DualTimeKey := total][PicusTimeKey := ZeroTime][PicTimeKey := ZeroTime]
    else if Get(row, SupervisionKey) == Text("yes") then
      var supervised := row[SpicTimeKey := ZeroTime][DualTimeKey := ZeroTime];
      if Get(supervised, PicNameKey) == Text(dpeName) then
        supervised[PicusTimeKey := ZeroTime][PicTimeKey := total]
      else
        supervised[PicusTimeKey := total][PicTimeKey := ZeroTime]
    else
      row[SpicTimeKey := ZeroTime][DualTimeKey := ZeroTime][PicusTimeKey := ZeroTime][PicTimeKey := total]
  }

  /** All four time columns are present after `add_pic_times!`, and no other key is added or removed. */
  lemma AddPicTimesKeys(row: Row, userName: string, dpeName: string)
    ensures AddPicTimes(row, userName, dpeName).Keys == row.Keys + {PicTimeKey, SpicTimeKey, PicusTimeKey, DualTimeKey}
  {
  }

  /** Applying the aerodrome translation a second time changes nothing. */
  lemma UpdateAerodromeCodesIdempotent(row: Row)
    ensures UpdateAerodromeCodes(UpdateAerodromeCodes(row)) == UpdateAerodromeCodes(row)
  {
    AerodromeTargetsAreNotSources();
    var once := UpdateAerodromeCodes(row);
    var twice := UpdateAerodromeCodes(once);
    assert Get(twice, FromKey) == Get(once, FromKey);
    assert Get(twice, ToKey) == Get(once, ToKey);
    assert twice.Keys == once.Keys;
    forall k | k in once ensures twice[k] == once[k] {
      assert Get(twice, k) == Get(once, k);
    }
  }

  /** The type column only ever ends up holding nil, a short code from the table, or what it held. */
  lemma UpdateAircraftTypeRange(row: Row)
    ensures var t := Get(UpdateAircraftType(row), TypeKey);
            t == Nil || t == Get(row, TypeKey) || (t.Text? && t.text in AircraftTypeMapping.Values)
  {
  }

  /** Translating a type twice loses it: no short code is itself a type name. */
  lemma UpdateAircraftTypeNotIdempotent()
    ensures var row := map[TypeKey := Text("Cessna 172")];
            Get(UpdateAircraftType(row), TypeKey) == Text("C172")
            && Get(UpdateAircraftType(UpdateAircraftType(row)), TypeKey) == Nil
  {
  }

  /**
   Translating a known type twice loses it: its short code is not a type name, so the second pass
   finds nothing and stores nil.
   */
  lemma UpdateAircraftTypeTwiceLosesType(row: Row)
    requires Get(row, TypeKey).Text? && Get(row, TypeKey).text in AircraftTypeMapping
    ensures Get(UpdateAircraftType(UpdateAircraftType(row)), TypeKey) == Nil
  {
    AircraftCodesAreNotNames();
  }

  /** Applying the aerodrome lookup to its own result changes nothing. */
  lemma AerodromeCodeIdempotent(v: Value)
    ensures AerodromeCode(AerodromeCode(v)) == AerodromeCode(v)
  {
  }

  /** Total time is never credited as both PIC and dual time, unless it is itself zero. */
  lemma PicAndDualExclusive(row: Row, userName: string, dpeName: string)
    ensures var r := AddPicTimes(row, userName, dpeName);
            Get(r, PicTimeKey) == Get(row, TotalTimeKey) && Get(r, DualTimeKey) == Get(row, TotalTimeKey)
            ==> Get(row, TotalTimeKey) == ZeroTime
  {
  }
}
