/**
 The static lookup tables of the converter: the target column layout, the renaming of source
 columns, the aircraft-type and aerodrome translations, and the derived and defaulted columns.
 */
module Tables {
  import opened Cells

  /** The 29 target columns, in the order every output record uses. */
  const ExpectedHeaders: seq<string> := [
    "Date", "Registration", "Type", "From", "To", "Off Block", "On Block", "Total Time", "SE Time", "ME Time", "MP Time",
    "PIC Time", "Copi Time", "Dual Time", "Instructor Time", "PICUS Time", "SPIC Time", "Night Time", "IFR Time",
    "PIC Name", "Day Ldg", "Night Ldg", "IFR Approaches", "Day Toff", "Night Toff", "IFR Departures", "Remark",
    "Marker: Cross Country", "Marker: Solo"
  ]

  /** Source column symbols (by name) to target column labels. */
  const HeaderMapping: map<string, string> := map[
    "day" := "Date",
    "registration_number" := "Registration",
    "aircraft" := "Type",
    "departure_place" := "From",
    "arrival_place" := "To",
    "engine_start_time" := "Off Block",
    "engine_stop_time" := "On Block",
    "engine_time" := "Total Time",
    "vfr_night" := "Night Time",
    "ifr" := "IFR Time",
    "pilot_in_command" := "PIC Name",
    "number_of_flights" := "Day Ldg",
    "touch_and_goes" := "Night Ldg",
    "nr_of_approaches" := "IFR Approaches",
    "day_toff" := "Day Toff",
    "go_arounds" := "Night Toff",
    "remarks" := "Remark",
    "cross_country" := "Marker: Cross Country",
    "marker_solo" := "Marker: Solo"
  ]

  /** Full aircraft type names to the short type codes of the target logbook. */
  const AircraftTypeMapping: map<string, string> := map[
    "Czech Aircraft Group s.r.o. PS-28 Cruiser" := "CRUZ",
    "AEROSTAR SA R40F Festival" := "FEST",
    "Zlin 142" := "Z142",
    "Zlin 242" := "Z242",
    "Cessna 172" := "C172",
    "Cessna 182" := "C182"
  ]

  /** Source aerodrome codes the target logbook spells differently. */
  const AerodromeCodeMapping: map<string, string> := map[
    "ATCJ" := "DZM",
    "LRCJ" := "DZM",
    "LRMM" := "LRBM"
  ]

  /** Columns derived from the flight's total time. */
  const CalculatedHeaders: seq<string> := ["SE Time", "Dual Time", "PIC Time", "SPIC Time", "PICUS Time"]

  /** Columns the source does not track, with the constant every row gets, in declaration order. */
  const AdditionalEmptyHeaders: seq<(string, Value)> := [
    ("ME Time", Text("0:00")),
    ("MP Time", Text("0:00")),
    ("Copi Time", Text("0:00")),
    ("Instructor Time", Text("0:00")),
    ("IFR Approaches", Num(0)),
    ("IFR Departures", Num(0))
  ]

  /** The zero duration the time rules write. */
  const ZeroTime: Value := Text("0:00")

  /** The keys of `AdditionalEmptyHeaders`, in order. */
  function AdditionalEmptyLabels(): (labels: seq<string>)
    ensures |labels| == |AdditionalEmptyHeaders|
    ensures forall i :: 0 <= i < |labels| ==> labels[i] == AdditionalEmptyHeaders[i].0
    ensures labels == ["ME Time", "MP Time", "Copi Time", "Instructor Time", "IFR Approaches", "IFR Departures"]
  {
    seq(|AdditionalEmptyHeaders|, i requires 0 <= i < |AdditionalEmptyHeaders| => AdditionalEmptyHeaders[i].0)
  }

  /**
   `HeaderMapping` read backwards, label to source column. It is written out so that the renaming
   can be checked to be one-to-one entry by entry.
   */
  const HeaderSources: map<string, string> := map[
    "Date" := "day",
    "Registration" := "registration_number",
    "Type" := "aircraft",
    "From" := "departure_place",
    "To" := "arrival_place",
    "Off Block" := "engine_start_time",
    "On Block" := "engine_stop_time",
    "Total Time" := "engine_time",
    "Night Time" := "vfr_night",
    "IFR Time" := "ifr",
    "PIC Name" := "pilot_in_command",
    "Day Ldg" := "number_of_flights",
    "Night Ldg" := "touch_and_goes",
    "IFR Approaches" := "nr_of_approaches",
    "Day Toff" := "day_toff",
    "Night Toff" := "go_arounds",
    "Remark" := "remarks",
    "Marker: Cross Country" := "cross_country",
    "Marker: Solo" := "marker_solo"
  ]

  /** `HeaderSources` undoes `HeaderMapping`. */
  lemma HeaderSourcesInvertMapping()
    ensures forall a :: a in HeaderMapping ==> HeaderMapping[a] in HeaderSources && HeaderSources[HeaderMapping[a]] == a
  {
  }

  /** Five derived and six defaulted columns; `SE Time` is the first derived one and no other. */
  lemma RuleColumnsShape()
    ensures |CalculatedHeaders| == 5 && |AdditionalEmptyLabels()| == 6
    ensures CalculatedHeaders[0] == "SE Time"
    ensures "SE Time" !in CalculatedHeaders[1..] && "SE Time" !in AdditionalEmptyLabels()
  {
  }

  /** No two source columns are renamed to the same label. */
  lemma HeaderMappingInjective()
    ensures forall a, b :: a in HeaderMapping && b in HeaderMapping && HeaderMapping[a] == HeaderMapping[b] ==> a == b
  {
    HeaderSourcesInvertMapping();
  }

  /** Every label the renaming produces is a target column. */
  lemma HeaderMappingTargetsExpected()
    ensures forall a :: a in HeaderMapping ==> HeaderMapping[a] in ExpectedHeaders
  {
  }

  /** No short type code is itself a full type name. */
  lemma AircraftCodesAreNotNames()
    ensures forall a :: a in AircraftTypeMapping ==> AircraftTypeMapping[a] !in AircraftTypeMapping
  {
  }

  /** No target label is itself the name of a source column. */
  lemma LabelsAreNotSourceNames()
    ensures forall a :: a in HeaderMapping ==> HeaderMapping[a] !in HeaderMapping
  {
  }

  /** No translated aerodrome code is itself translated again. */
  lemma AerodromeTargetsAreNotSources()
    ensures forall a :: a in AerodromeCodeMapping ==> AerodromeCodeMapping[a] !in AerodromeCodeMapping
  {
  }

  /** The target layout lists every derived and every defaulted column. */
  lemma ExpectedHeadersCoverRuleColumns()
    ensures forall c :: c in CalculatedHeaders ==> c in ExpectedHeaders
    ensures forall c :: c in AdditionalEmptyLabels() ==> c in ExpectedHeaders
  {
  }

  /** Where the translated columns and the pilot's name sit in the target layout. */
  lemma ExpectedHeaderPositions()
    ensures |ExpectedHeaders| == 29
    ensures ExpectedHeaders[2] == "Type" && ExpectedHeaders[3] == "From" && ExpectedHeaders[4] == "To"
    ensures ExpectedHeaders[19] == "PIC Name"
  {
  }

  /** Where the time columns and the IFR counters sit in the target layout. */
  lemma ExpectedTimePositions()
    ensures |ExpectedHeaders| == 29
    ensures ExpectedHeaders[7] == "Total Time" && ExpectedHeaders[8] == "SE Time"
    ensures ExpectedHeaders[9] == "ME Time" && ExpectedHeaders[10] == "MP Time"
    ensures ExpectedHeaders[11] == "PIC Time" && ExpectedHeaders[12] == "Copi Time"
    ensures ExpectedHeaders[13] == "Dual Time" && ExpectedHeaders[14] == "Instructor Time"
    ensures ExpectedHeaders[15] == "PICUS Time" && ExpectedHeaders[16] == "SPIC Time"
    ensures ExpectedHeaders[22] == "IFR Approaches" && ExpectedHeaders[25] == "IFR Departures"
  {
  }

  /** The renaming of the source columns a sample flight uses; `supervision` is not renamed. */
  lemma HeaderMappingSamples()
    ensures "aircraft" in HeaderMapping && HeaderMapping["aircraft"] == "Type"
    ensures "departure_place" in HeaderMapping && HeaderMapping["departure_place"] == "From"
    ensures "arrival_place" in HeaderMapping && HeaderMapping["arrival_place"] == "To"
    ensures "engine_time" in HeaderMapping && HeaderMapping["engine_time"] == "Total Time"
    ensures "pilot_in_command" in HeaderMapping && HeaderMapping["pilot_in_command"] == "PIC Name"
    ensures "supervision" !in HeaderMapping
  {
  }

  /** The type and aerodrome translations a sample flight uses. */
  lemma TranslationSamples()
    ensures "Cessna 172" in AircraftTypeMapping && AircraftTypeMapping["Cessna 172"] == "C172"
    ensures "LRMM" in AerodromeCodeMapping && AerodromeCodeMapping["LRMM"] == "LRBM"
    ensures "ATCJ" in AerodromeCodeMapping && AerodromeCodeMapping["ATCJ"] == "DZM"
  {
  }
}
