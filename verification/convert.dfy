/**
 `convert_row`: rename a source row's keys, run the derivation rules in order, and read the
 working row back out in the 29-column target layout.
 */
module Convert {
  import opened Cells
  import opened Tables
  import opened Rules

  /**
   `HEADER_MAPPING[key.to_sym] || key`: a key whose symbol form names a mapped source column
   becomes that column's label; any other key stays as it is, symbol or string.
   */
  function RenameKey(k: Key): (r: Key)
    ensures k.name in HeaderMapping ==> r == Str(HeaderMapping[k.name])
    ensures k.name !in HeaderMapping ==> r == k
    ensures r.name !in HeaderMapping
  {
    LabelsAreNotSourceNames();
    if k.name in HeaderMapping then Str(HeaderMapping[k.name]) else k
  }

  /** No later field of `fields` is renamed by `rename` to the same key as field `i`. */
  predicate LastToRename(fields: SourceRow, rename: Key -> Key, i: int)
    requires 0 <= i < |fields|
  {
    forall j :: i < j < |fields| ==> rename(fields[j].key) != rename(fields[i].key)
  }

  /** The keys `rename` gives the fields of `fields`. */
  function RenamedKeys(fields: SourceRow, rename: Key -> Key): set<Key>
  {
    set i | 0 <= i < |fields| :: rename(fields[i].key)
  }

  /**
   `Hash#transform_keys` with a block: the result holds exactly the renamed keys, and under each
   the value of the last field renamed to it (a later entry overwrites an earlier one that collides).
   */
  function TransformKeys(fields: SourceRow, rename: Key -> Key): (r: Row)
    ensures r.Keys == RenamedKeys(fields, rename)
    ensures forall i {:trigger LastToRename(fields, rename, i)} :: 0 <= i < |fields| && LastToRename(fields, rename, i) ==> Get(r, rename(fields[i].key)) == fields[i].value
    decreases |fields|
  {
    if |fields| == 0 then map[]
    else
      var n := |fields| - 1;
      var prefix := fields[..n];
      var init := TransformKeys(prefix, rename);
      var r := init[rename(fields[n].key) := fields[n].value];
      assert RenamedKeys(fields, rename) == RenamedKeys(prefix, rename) + {rename(fields[n].key)} by {
        forall k | k in RenamedKeys(fields, rename) ensures k in RenamedKeys(prefix, rename) + {rename(fields[n].key)} {
          var i :| 0 <= i < |fields| && k == rename(fields[i].key);
          if i < n { assert prefix[i] == fields[i]; }
        }
        forall k | k in RenamedKeys(prefix, rename) ensures k in RenamedKeys(fields, rename) {
          var i :| 0 <= i < |prefix| && k == rename(prefix[i].key);
          assert prefix[i] == fields[i];
        }
      }
      forall i | 0 <= i < |fields| && LastToRename(fields, rename, i)
        ensures Get(r, rename(fields[i].key)) == fields[i].value
      {
        if i < n {
          assert prefix[i] == fields[i];
          forall j | i < j < |prefix| ensures rename(prefix[j].key) != rename(prefix[i].key) {
            assert prefix[j] == fields[j];
          }
          assert LastToRename(prefix, rename, i);
        }
      }
      r
  }

  /**
   The renaming step of `convert_row`: every field stored under its renamed key, a later field
   overwriting an earlier one renamed to the same key.
   */
  function RenameKeys(fields: SourceRow): Row
  {
    TransformKeys(fields, RenameKey)
  }

  /** Renaming a renamed key changes nothing: no label names a source column. */
  lemma RenameKeyIdempotent(k: Key)
    ensures RenameKey(RenameKey(k)) == RenameKey(k)
  {
  }

  /** Keys a source row may hold as SmarterCSV produces them: distinct, and all symbols. */
  predicate SymbolRow(fields: SourceRow)
  {
    DistinctKeys(fields) && forall i :: 0 <= i < |fields| ==> fields[i].key.Sym?
  }

  /** Two different symbols are never renamed to the same key. */
  lemma RenameKeyInjectiveOnSymbols(a: Key, b: Key)
    requires a.Sym? && b.Sym? && a != b
    ensures RenameKey(a) != RenameKey(b)
  {
    HeaderMappingInjective();
  }

  /** On symbol keys renaming is injective, so no field of a symbol row is overwritten. */
  lemma {:induction false} RenameKeysOfSymbolRow(fields: SourceRow)
    requires SymbolRow(fields)
    ensures forall i :: 0 <= i < |fields| ==> Get(RenameKeys(fields), RenameKey(fields[i].key)) == fields[i].value
  {
    forall i | 0 <= i < |fields|
      ensures Get(RenameKeys(fields), RenameKey(fields[i].key)) == fields[i].value
    {
      forall j | i < j < |fields| ensures RenameKey(fields[j].key) != RenameKey(fields[i].key) {
        RenameKeyInjectiveOnSymbols(fields[j].key, fields[i].key);
      }
      assert LastToRename(fields, RenameKey, i);
    }
  }

  /** The row read out column by column: one cell per listed label, nil where the row has no such key. */
  function Project(row: Row, headers: seq<string>): (r: seq<Value>)
    ensures |r| == |headers|
    ensures forall i :: 0 <= i < |headers| ==> r[i] == Get(row, Str(headers[i]))
  {
    if |headers| == 0 then [] else [Get(row, Str(headers[0]))] + Project(row, headers[1..])
  }

  /** The first two rules, which translate the type and the aerodrome codes. */
  function Translate(renamed: Row): Row
  {
    UpdateAerodromeCodes(UpdateAircraftType(renamed))
  }

  /** The last three rules, which derive the single-engine, defaulted and role-dependent time columns. */
  function Derive(row: Row, userName: string, dpeName: string): Row
  {
    AddPicTimes(AddDefaultEmptyValues(AddSingleEngineTime(row)), userName, dpeName)
  }

  /** The derivation rules, in `convert_row`'s order, applied to the renamed row. */
  function ApplyRules(renamed: Row, userName: string, dpeName: string): Row
  {
    Derive(Translate(renamed), userName, dpeName)
  }

  /** Labels of the columns some rule writes; every other column is copied through. */
  predicate IsRuleColumn(column: string)
  {
    column in {
      "Type", "From", "To", "SE Time", "ME Time", "MP Time", "Copi Time", "Instructor Time",
      "IFR Approaches", "IFR Departures", "PIC Time", "SPIC Time", "PICUS Time", "Dual Time"
    }
  }

  /** The translation rules change the type and the two aerodromes, and nothing else. */
  lemma TranslateEffect(renamed: Row)
    ensures Get(Translate(renamed), TypeKey) == TypeCode(Get(renamed, TypeKey))
    ensures Get(Translate(renamed), FromKey) == AerodromeCode(Get(renamed, FromKey))
    ensures Get(Translate(renamed), ToKey) == AerodromeCode(Get(renamed, ToKey))
    ensures forall k | k != TypeKey && k != FromKey && k != ToKey :: Get(Translate(renamed), k) == Get(renamed, k)
  {
  }

  /** The translation rules keep the total time, the pilot's name and the supervision flag. */
  lemma TranslateKeepsCrew(renamed: Row)
    ensures Get(Translate(renamed), TotalTimeKey) == Get(renamed, TotalTimeKey)
    ensures Get(Translate(renamed), PicNameKey) == Get(renamed, PicNameKey)
    ensures Get(Translate(renamed), SupervisionKey) == Get(renamed, SupervisionKey)
  {
    TranslateEffect(renamed);
  }

  /** The derivation rules leave every column they do not write alone. */
  lemma DeriveFrame(row: Row, userName: string, dpeName: string, k: Key)
    requires k !in {SeTimeKey, Str("ME Time"), Str("MP Time"), Str("Copi Time"), Str("Instructor Time"),
                    Str("IFR Approaches"), Str("IFR Departures"), PicTimeKey, SpicTimeKey, PicusTimeKey, DualTimeKey}
    ensures Get(Derive(row, userName, dpeName), k) == Get(row, k)
  {
  }

  /** After the derivation rules, `SE Time` repeats `Total Time`, which they leave alone. */
  lemma DeriveSingleEngine(row: Row, userName: string, dpeName: string)
    ensures Get(Derive(row, userName, dpeName), SeTimeKey) == Get(row, TotalTimeKey)
    ensures Get(Derive(row, userName, dpeName), TotalTimeKey) == Get(row, TotalTimeKey)
  {
  }

  /** After the derivation rules, the defaulted columns hold their constants. */
  lemma DeriveDefaults(row: Row, userName: string, dpeName: string)
    ensures var out := Derive(row, userName, dpeName);
            && Get(out, Str("ME Time")) == ZeroTime && Get(out, Str("MP Time")) == ZeroTime
            && Get(out, Str("Copi Time")) == ZeroTime && Get(out, Str("Instructor Time")) == ZeroTime
            && Get(out, Str("IFR Approaches")) == Num(0) && Get(out, Str("IFR Departures")) == Num(0)
  {
  }

  /** After the derivation rules, the total time is credited by the role the row itself describes. */
  lemma DeriveCredit(row: Row, userName: string, dpeName: string)
    ensures TimesOf(Derive(row, userName, dpeName)) == Credit(RoleOf(row, userName, dpeName), Get(row, TotalTimeKey))
  {
  }

  /** A key no rule writes (including every symbol key) keeps its renamed value through all rules. */
  lemma ApplyRulesFrame(renamed: Row, userName: string, dpeName: string, k: Key)
    requires !(k.Str? && IsRuleColumn(k.name))
    ensures Get(ApplyRules(renamed, userName, dpeName), k) == Get(renamed, k)
  {
    TranslateEffect(renamed);
    DeriveFrame(Translate(renamed), userName, dpeName, k);
  }

  /** What the rules leave in the type, aerodrome, total and single-engine time columns. */
  lemma ApplyRulesTranslations(renamed: Row, userName: string, dpeName: string)
    ensures var out := ApplyRules(renamed, userName, dpeName);
            && Get(out, TypeKey) == TypeCode(Get(renamed, TypeKey))
            && Get(out, FromKey) == AerodromeCode(Get(renamed, FromKey))
            && Get(out, ToKey) == AerodromeCode(Get(renamed, ToKey))
            && Get(out, TotalTimeKey) == Get(renamed, TotalTimeKey)
            && Get(out, SeTimeKey) == Get(renamed, TotalTimeKey)
  {
    var translated := Translate(renamed);
    TranslateEffect(renamed);
    DeriveFrame(translated, userName, dpeName, TypeKey);
    DeriveFrame(translated, userName, dpeName, FromKey);
    DeriveFrame(translated, userName, dpeName, ToKey);
    DeriveSingleEngine(translated, userName, dpeName);
    assert Get(translated, TotalTimeKey) == Get(renamed, TotalTimeKey);
  }

  /** What the rules leave in the defaulted columns: their constants. */
  lemma ApplyRulesDefaults(renamed: Row, userName: string, dpeName: string)
    ensures var out := ApplyRules(renamed, userName, dpeName);
            && Get(out, Str("ME Time")) == ZeroTime && Get(out, Str("MP Time")) == ZeroTime
            && Get(out, Str("Copi Time")) == ZeroTime && Get(out, Str("Instructor Time")) == ZeroTime
            && Get(out, Str("IFR Approaches")) == Num(0) && Get(out, Str("IFR Departures")) == Num(0)
  {
    DeriveDefaults(Translate(renamed), userName, dpeName);
  }

  /** What the rules leave in the four role-dependent time columns: the renamed row's total, credited by its role. */
  lemma ApplyRulesCredit(renamed: Row, userName: string, dpeName: string)
    ensures TimesOf(ApplyRules(renamed, userName, dpeName)) == Credit(RoleOf(renamed, userName, dpeName), Get(renamed, TotalTimeKey))
  {
    var translated := Translate(renamed);
    TranslateKeepsCrew(renamed);
    DeriveCredit(translated, userName, dpeName);
    RoleOfReadsNameAndSupervision(translated, renamed, userName, dpeName);
  }

  /** Cell `i` of `r` holds the renamed row's value under `headers[i]` wherever no rule writes that column. */
  predicate CopiedThrough(r: seq<Value>, renamed: Row, headers: seq<string>)
  {
    |r| == |headers| && forall i :: 0 <= i < |r| && !IsRuleColumn(headers[i]) ==> r[i] == Get(renamed, Str(headers[i]))
  }

  /** Reading any list of columns out of the rules' result copies every column no rule writes. */
  lemma ProjectCopiesThrough(renamed: Row, userName: string, dpeName: string, headers: seq<string>)
    ensures CopiedThrough(Project(ApplyRules(renamed, userName, dpeName), headers), renamed, headers)
  {
    forall i | 0 <= i < |headers| && !IsRuleColumn(headers[i])
      ensures Get(ApplyRules(renamed, userName, dpeName), Str(headers[i])) == Get(renamed, Str(headers[i]))
    {
      ApplyRulesFrame(renamed, userName, dpeName, Str(headers[i]));
    }
  }

  /**
   `convert_row`: 29 cells in target order. Columns no rule writes carry the renamed row's value;
   the type and aerodromes are translated; `SE Time` repeats `Total Time`; the defaulted columns
   hold their constants; and the total time is credited to the column the pilot's role selects.
   */
  function ConvertRow(fields: SourceRow, userName: string, dpeName: string): (r: seq<Value>)
    ensures |r| == |ExpectedHeaders| == 29
    ensures CopiedThrough(r, RenameKeys(fields), ExpectedHeaders)
    ensures var renamed := RenameKeys(fields);
            && r[2] == TypeCode(Get(renamed, TypeKey))
            && r[3] == AerodromeCode(Get(renamed, FromKey))
            && r[4] == AerodromeCode(Get(renamed, ToKey))
    ensures r[7] == Get(RenameKeys(fields), TotalTimeKey) && r[8] == r[7]
    ensures r[9] == r[10] == r[12] == r[14] == ZeroTime && r[22] == r[25] == Num(0)
    ensures PicTimes(r[11], r[16], r[15], r[13]) == Credit(RoleOf(RenameKeys(fields), userName, dpeName), r[7])
  {
    var renamed := RenameKeys(fields);
    ExpectedHeaderPositions();
    ExpectedTimePositions();
    ApplyRulesTranslations(renamed, userName, dpeName);
    ApplyRulesDefaults(renamed, userName, dpeName);
    ApplyRulesCredit(renamed, userName, dpeName);
    ProjectCopiesThrough(renamed, userName, dpeName, ExpectedHeaders);
    Project(ApplyRules(renamed, userName, dpeName), ExpectedHeaders)
  }

  /** The sample flight: a Cessna 172 from LRMM to ATCJ, 1:30 long, flown by `picName`. */
  function SampleFlight(picName: string, supervision: string): SourceRow
  {
    [ Field(Sym("aircraft"), Text("Cessna 172")),
      Field(Sym("departure_place"), Text("LRMM")),
      Field(Sym("arrival_place"), Text("ATCJ")),
      Field(Sym("engine_time"), Text("1:30")),
      Field(Sym("pilot_in_command"), Text(picName)),
      Field(Sym("supervision"), Text(supervision)) ]
  }

  /** Appending a field to a row stores it over whatever the shorter row renamed to the same key. */
  lemma TransformKeysSnoc(prefix: SourceRow, f: Field, rename: Key -> Key)
    ensures TransformKeys(prefix + [f], rename) == TransformKeys(prefix, rename)[rename(f.key) := f.value]
  {
    assert (prefix + [f])[..|prefix|] == prefix;
  }

  /** Renaming the sample flight stores its six values under the target labels, in field order. */
  lemma SampleFlightRenamedInOrder(picName: string, supervision: string)
    ensures RenameKeys(SampleFlight(picName, supervision))
            == map[][TypeKey := Text("Cessna 172")][FromKey := Text("LRMM")][ToKey := Text("ATCJ")]
                  [TotalTimeKey := Text("1:30")][PicNameKey := Text(picName)][SupervisionKey := Text(supervision)]
  {
    var fields := SampleFlight(picName, supervision);
    HeaderMappingSamples();
    var s0: SourceRow := [];
    var s1 := s0 + [fields[0]];
    var s2 := s1 + [fields[1]];
    var s3 := s2 + [fields[2]];
    var s4 := s3 + [fields[3]];
    var s5 := s4 + [fields[4]];
    assert s5 + [fields[5]] == fields;
    TransformKeysSnoc(s0, fields[0], RenameKey);
    TransformKeysSnoc(s1, fields[1], RenameKey);
    TransformKeysSnoc(s2, fields[2], RenameKey);
    TransformKeysSnoc(s3, fields[3], RenameKey);
    TransformKeysSnoc(s4, fields[4], RenameKey);
    TransformKeysSnoc(s5, fields[5], RenameKey);
    assert RenameKey(fields[0].key) == TypeKey;
    assert RenameKey(fields[1].key) == FromKey;
    assert RenameKey(fields[2].key) == ToKey;
    assert RenameKey(fields[3].key) == TotalTimeKey;
    assert RenameKey(fields[4].key) == PicNameKey;
    assert RenameKey(fields[5].key) == SupervisionKey;
  }

  /** The renamed sample flight holds the sample's aircraft and aerodromes under the target labels. */
  lemma SampleFlightRenamedRoute(picName: string, supervision: string)
    ensures var renamed := RenameKeys(SampleFlight(picName, supervision));
            && Get(renamed, TypeKey) == Text("Cessna 172")
            && Get(renamed, FromKey) == Text("LRMM")
            && Get(renamed, ToKey) == Text("ATCJ")
  {
    SampleFlightRenamedInOrder(picName, supervision);
  }

  /** The renamed sample flight holds the sample's time, pilot and supervision flag. */
  lemma SampleFlightRenamedCrew(picName: string, supervision: string)
    ensures var renamed := RenameKeys(SampleFlight(picName, supervision));
            && Get(renamed, TotalTimeKey) == Text("1:30")
            && Get(renamed, PicNameKey) == Text(picName)
            && Get(renamed, SupervisionKey) == Text(supervision)
  {
    SampleFlightRenamedInOrder(picName, supervision);
  }

  /**
   The pilot flew the sample flight unsupervised: the type and both aerodromes are translated and
   all 1:30 is logged as PIC time.
   */
  lemma SoloSampleFlight(userName: string, dpeName: string, supervision: string)
    requires supervision != "yes"
    ensures var r := ConvertRow(SampleFlight(userName, supervision), userName, dpeName);
            && r[2] == Text("C172") && r[3] == Text("LRBM") && r[4] == Text("DZM")
            && r[8] == Text("1:30") && r[11] == Text("1:30")
            && r[16] == ZeroTime && r[13] == ZeroTime && r[15] == ZeroTime
  {
    SampleFlightRenamedRoute(userName, supervision);
    SampleFlightRenamedCrew(userName, supervision);
    TranslationSamples();
  }

  /** Someone else flew the sample flight: 1:30 is logged as SPIC and dual time, supervised or not. */
  lemma StudentSampleFlight(picName: string, userName: string, dpeName: string, supervision: string)
    requires picName != userName && picName != dpeName
    ensures var r := ConvertRow(SampleFlight(picName, supervision), userName, dpeName);
            && r[13] == Text("1:30") && r[16] == Text("1:30")
            && r[11] == ZeroTime && r[15] == ZeroTime
  {
    SampleFlightRenamedCrew(picName, supervision);
  }
}
