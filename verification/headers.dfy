/**
 `convert_headers`: translate a source header list into target column names and insert the derived
 and defaulted columns after `Total Time`.
 */
module Headers {
  import opened Cells
  import opened Tables

  datatype Option<T> = None | Some(value: T)

  /**
   `HEADER_MAPPING[header] || header`. Unlike the row renaming there is no `to_sym` here, so only a
   mapped symbol is translated; a string header is kept even when its name is a mapped one.
   */
  function MapHeader(h: Key): (r: Key)
    ensures h.Sym? && h.name in HeaderMapping ==> r == Str(HeaderMapping[h.name])
    ensures !(h.Sym? && h.name in HeaderMapping) ==> r == h
    ensures r.Str? || r == h
  {
    if h.Sym? && h.name in HeaderMapping then Str(HeaderMapping[h.name]) else h
  }

  /** `headers.map { |header| ... }`: every header translated, in place. */
  function MapHeaders(headers: seq<Key>): (r: seq<Key>)
    ensures |r| == |headers|
    ensures forall i :: 0 <= i < |headers| ==> r[i] == MapHeader(headers[i])
  {
    if |headers| == 0 then [] else [MapHeader(headers[0])] + MapHeaders(headers[1..])
  }

  /** String keys for a list of labels. */
  function Labels(names: seq<string>): (r: seq<Key>)
    ensures |r| == |names|
    ensures forall i :: 0 <= i < |names| ==> r[i] == Str(names[i])
  {
    if |names| == 0 then [] else [Str(names[0])] + Labels(names[1..])
  }

  /**
   The argument list `first, *calculated, *defaults`: one label, then two lists of labels
   spread out in order, each as a string key.
   */
  function SplatBlock(first: string, calculated: seq<string>, defaults: seq<string>): (b: seq<Key>)
    ensures |b| == 1 + |calculated| + |defaults|
    ensures b[0] == Str(first)
    ensures forall i :: 0 <= i < |calculated| ==> b[1 + i] == Str(calculated[i])
    ensures forall i :: 0 <= i < |defaults| ==> b[1 + |calculated| + i] == Str(defaults[i])
  {
    [Str(first)] + Labels(calculated) + Labels(defaults)
  }

  /** The inserted block: `'SE Time'`, then `CALCULATED_HEADERS` (which starts with `'SE Time'` again), then the default keys. */
  function InsertedBlock(): seq<Key>
  {
    SplatBlock("SE Time", CalculatedHeaders, AdditionalEmptyLabels())
  }

  /** `Array#index`: the first position holding `x`, or nil when there is none. */
  function IndexOf(s: seq<Key>, x: Key): (r: Option<nat>)
    ensures r.None? <==> x !in s
    ensures r.Some? ==> r.value < |s| && s[r.value] == x && x !in s[..r.value]
  {
    if |s| == 0 then None
    else if s[0] == x then Some(0)
    else
      match IndexOf(s[1..], x)
      case None => None
      case Some(i) =>
        assert s[..i + 1] == [s[0]] + s[1..][..i];
        Some(i + 1)
  }

  /**
   `s.insert(index + 1, *block)` with `index = s.index(marker)`, or `s + block` when `marker` is
   absent: the block lands right after the first `marker`, or at the end.
   */
  function InsertAfterFirst(s: seq<Key>, marker: Key, block: seq<Key>): (r: seq<Key>)
    ensures |r| == |s| + |block|
    ensures marker !in s ==> r == s + block
    ensures forall p :: 0 <= p < |s| && s[p] == marker && marker !in s[..p] ==> r == s[..p + 1] + block + s[p + 1..]
  {
    match IndexOf(s, marker)
    case Some(i) =>
      assert forall p :: 0 <= p < |s| && s[p] == marker && marker !in s[..p] ==> p == i;
      s[..i + 1] + block + s[i + 1..]
    case None => s + block
  }

  /**
   Taking the block back out of the result leaves `s` as it was: the block is one contiguous run,
   placed right after a `marker` or at the end.
   */
  lemma InsertAfterFirstKeepsOrder(s: seq<Key>, marker: Key, block: seq<Key>)
    ensures exists p :: 0 <= p <= |s| && InsertAfterFirst(s, marker, block) == s[..p] + block + s[p..]
              && (p == |s| || (0 < p && s[p - 1] == marker))
  {
    match IndexOf(s, marker)
    case Some(i) =>
      assert InsertAfterFirst(s, marker, block) == s[..i + 1] + block + s[i + 1..];
    case None =>
      assert s[..|s|] == s && s[|s|..] == [];
  }

  const TotalTime: Key := Str("Total Time")

  /**
   `convert_headers`: the translated headers with the block inserted right after the first
   `Total Time`, or appended when no header translates to `Total Time`; the block adds twelve
   headers.
   */
  function ConvertHeaders(headers: seq<Key>): (r: seq<Key>)
    ensures |r| == |headers| + 12
  {
    InsertedBlockShape();
    InsertAfterFirst(MapHeaders(headers), TotalTime, InsertedBlock())
  }

  /** The block holds twelve columns, the first two both `SE Time`. */
  lemma InsertedBlockShape()
    ensures |InsertedBlock()| == 12
    ensures InsertedBlock()[0] == InsertedBlock()[1] == Str("SE Time")
    ensures Str("SE Time") !in InsertedBlock()[2..]
  {
    RuleColumnsShape();
    var b := InsertedBlock();
    var calculated := CalculatedHeaders;
    var defaults := AdditionalEmptyLabels();
    forall i | 2 <= i < 12 ensures b[i] != Str("SE Time") {
      if i < 6 {
        assert b[i] == Str(calculated[i - 1]) && calculated[i - 1] in calculated[1..];
      } else {
        assert b[i] == Str(defaults[i - 6]);
      }
    }
    assert forall j :: 0 <= j < |b[2..]| ==> b[2..][j] == b[j + 2];
  }

  /**
   Where `convert_headers` puts the block: right after the first header that translates to
   `Total Time`, or at the end exactly when no header does.
   */
  lemma ConvertHeadersPlacesBlock(headers: seq<Key>)
    ensures TotalTime !in MapHeaders(headers) ==> ConvertHeaders(headers) == MapHeaders(headers) + InsertedBlock()
    ensures forall p :: 0 <= p < |headers| && MapHeaders(headers)[p] == TotalTime && TotalTime !in MapHeaders(headers)[..p] ==>
              ConvertHeaders(headers) == MapHeaders(headers)[..p + 1] + InsertedBlock() + MapHeaders(headers)[p + 1..]
  {
  }

  /**
   Taking the inserted block back out leaves the translated headers in their original order: the
   block is one contiguous run, placed after a `Total Time` or at the end.
   */
  lemma ConvertHeadersKeepsOrder(headers: seq<Key>)
    ensures exists p :: 0 <= p <= |headers|
              && ConvertHeaders(headers) == MapHeaders(headers)[..p] + InsertedBlock() + MapHeaders(headers)[p..]
              && (p == |headers| || (0 < p && MapHeaders(headers)[p - 1] == TotalTime))
  {
    InsertAfterFirstKeepsOrder(MapHeaders(headers), TotalTime, InsertedBlock());
  }

  /** A sequence that starts with two copies of `x` and holds no more of them counts `x` twice. */
  lemma CountLeadingPair(b: seq<Key>, x: Key)
    requires |b| >= 2 && b[0] == x && b[1] == x && x !in b[2..]
    ensures multiset(b)[x] == 2
  {
    assert b == [b[0], b[1]] + b[2..];
  }

  /** Counting across an inserted run: the run's occurrences add to the rest. */
  lemma CountAround(s: seq<Key>, block: seq<Key>, r: seq<Key>, x: Key)
    requires exists p :: 0 <= p <= |s| && r == s[..p] + block + s[p..]
    ensures multiset(r)[x] == multiset(s)[x] + multiset(block)[x]
  {
    var p :| 0 <= p <= |s| && r == s[..p] + block + s[p..];
    assert s == s[..p] + s[p..];
  }

  /** `SE Time` is inserted twice: the result holds two more of it than the translated headers. */
  lemma ConvertHeadersRepeatsSeTime(headers: seq<Key>)
    ensures multiset(ConvertHeaders(headers))[Str("SE Time")] == multiset(MapHeaders(headers))[Str("SE Time")] + 2
  {
    InsertedBlockShape();
    CountLeadingPair(InsertedBlock(), Str("SE Time"));
    ConvertHeadersKeepsOrder(headers);
    CountAround(MapHeaders(headers), InsertedBlock(), ConvertHeaders(headers), Str("SE Time"));
  }

  /** What an inserted run leaves in the result: exactly the members of the sequence and of the run. */
  lemma MembersAround(s: seq<Key>, block: seq<Key>, r: seq<Key>)
    requires exists p :: 0 <= p <= |s| && r == s[..p] + block + s[p..]
    ensures forall k: Key :: k in r <==> k in s || k in block
  {
    var p :| 0 <= p <= |s| && r == s[..p] + block + s[p..];
    assert s == s[..p] + s[p..];
  }

  /** Every column in the block is a derived or a defaulted one. */
  lemma InsertedBlockLabels()
    ensures forall k: Key :: k in InsertedBlock() ==> k.Str? && (k.name in CalculatedHeaders || k.name in AdditionalEmptyLabels())
  {
    var b := InsertedBlock();
    var extra := AdditionalEmptyLabels();
    assert b[0] == Str(CalculatedHeaders[0]);
    forall k | k in b ensures k.Str? && (k.name in CalculatedHeaders || k.name in extra) {
      var i :| 0 <= i < |b| && b[i] == k;
      if i == 0 {
      } else if i < 6 {
        assert b[i] == Str(CalculatedHeaders[i - 1]);
      } else {
        assert b[i] == Str(extra[i - 6]);
      }
    }
  }

  /** Every derived and every defaulted column is in the block. */
  lemma InsertedBlockHoldsRuleColumns()
    ensures forall c :: c in CalculatedHeaders || c in AdditionalEmptyLabels() ==> Str(c) in InsertedBlock()
  {
    var b := InsertedBlock();
    var extra := AdditionalEmptyLabels();
    forall c | c in CalculatedHeaders || c in extra ensures Str(c) in b {
      if c in CalculatedHeaders {
        var i :| 0 <= i < 5 && CalculatedHeaders[i] == c;
        assert b[i + 1] == Str(c);
      } else {
        var i :| 0 <= i < 6 && extra[i] == c;
        assert b[i + 6] == Str(c);
      }
    }
  }

  /** Every source column with a target label: the symbols `HEADER_MAPPING` renames. */
  predicate MappedSymbols(headers: seq<Key>)
  {
    forall i :: 0 <= i < |headers| ==> headers[i].Sym? && headers[i].name in HeaderMapping
  }

  /** An inserted run keeps a sequence of labels inside a layout when the run itself lies inside it. */
  lemma WithinAround(s: seq<Key>, block: seq<Key>, r: seq<Key>, layout: seq<string>)
    requires exists p :: 0 <= p <= |s| && r == s[..p] + block + s[p..]
    requires forall k: Key :: k in s ==> k.Str? && k.name in layout
    requires forall k: Key :: k in block ==> k.Str? && k.name in layout
    ensures forall k: Key :: k in r ==> k.Str? && k.name in layout
  {
    MembersAround(s, block, r);
  }

  /** Renamed mapped symbols are target columns. */
  lemma MapHeadersWithinLayout(headers: seq<Key>)
    requires MappedSymbols(headers)
    ensures forall k: Key :: k in MapHeaders(headers) ==> k.Str? && k.name in ExpectedHeaders
  {
    HeaderMappingTargetsExpected();
    var mapped := MapHeaders(headers);
    forall k | k in mapped ensures k.Str? && k.name in ExpectedHeaders {
      var i :| 0 <= i < |mapped| && mapped[i] == k;
      assert k == Str(HeaderMapping[headers[i].name]);
    }
  }

  /** The inserted columns are target columns. */
  lemma InsertedBlockWithinLayout()
    ensures forall k: Key :: k in InsertedBlock() ==> k.Str? && k.name in ExpectedHeaders
  {
    InsertedBlockLabels();
    ExpectedHeadersCoverRuleColumns();
  }

  /**
   On a source that uses only mapped columns, every converted header is a column of the target
   layout.
   */
  lemma ConvertHeadersWithinLayout(headers: seq<Key>)
    requires MappedSymbols(headers)
    ensures forall k: Key :: k in ConvertHeaders(headers) ==> k.Str? && k.name in ExpectedHeaders
  {
    ConvertHeadersKeepsOrder(headers);
    MapHeadersWithinLayout(headers);
    InsertedBlockWithinLayout();
    WithinAround(MapHeaders(headers), InsertedBlock(), ConvertHeaders(headers), ExpectedHeaders);
  }

  /** Every source column `HEADER_MAPPING` knows is among the headers. */
  predicate AllMappedPresent(headers: seq<Key>)
  {
    forall n :: n in HeaderMapping ==> Sym(n) in headers
  }

  /** A sequence and a run inserted into it: whatever either holds, the result holds. */
  lemma CoversAround(s: seq<Key>, block: seq<Key>, r: seq<Key>, renamed: set<string>, inserted: set<string>)
    requires exists p :: 0 <= p <= |s| && r == s[..p] + block + s[p..]
    requires forall c :: c in renamed ==> Str(c) in s
    requires forall c :: c in inserted ==> Str(c) in block
    ensures forall c :: c in renamed + inserted ==> Str(c) in r
  {
    MembersAround(s, block, r);
  }

  /** Every label the renaming produces shows up once all mapped source columns are present. */
  lemma MapHeadersCoverMapping(headers: seq<Key>)
    requires AllMappedPresent(headers)
    ensures forall c :: c in HeaderMapping.Values ==> Str(c) in MapHeaders(headers)
  {
    var mapped := MapHeaders(headers);
    forall c | c in HeaderMapping.Values ensures Str(c) in mapped {
      var n :| n in HeaderMapping && HeaderMapping[n] == c;
      var i :| 0 <= i < |headers| && headers[i] == Sym(n);
      assert mapped[i] == Str(c);
    }
  }

  /**
   A source holding every mapped column converts to headers that name every renamed, derived and
   defaulted column; with `ConvertHeadersWithinLayout` they name nothing outside the target layout.
   */
  lemma ConvertHeadersCoverColumns(headers: seq<Key>)
    requires AllMappedPresent(headers)
    ensures forall c :: c in HeaderMapping.Values || c in CalculatedHeaders || c in AdditionalEmptyLabels() ==>
              Str(c) in ConvertHeaders(headers)
  {
    ConvertHeadersKeepsOrder(headers);
    MapHeadersCoverMapping(headers);
    InsertedBlockHoldsRuleColumns();
    CoversAround(MapHeaders(headers), InsertedBlock(), ConvertHeaders(headers), HeaderMapping.Values,
                 set c | c in CalculatedHeaders + AdditionalEmptyLabels());
  }
}
