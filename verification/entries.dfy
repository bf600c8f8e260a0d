/** Validation of the command-line funnel entries (`parseFunnel` in funnel.go). */
module Entries {
  import opened Wrappers
  import Palette

  /** The most entries a funnel may have: one per palette colour. */
  const MaxEntries: nat := |Palette.Colorpal|

  /** Why a list of entries was refused. */
  datatype FunnelError =
    | NotANumber(entry: string)   // the token is not a decimal number
    | OutOfRange(value: real)     // the number lies outside [0, 100]
    | NoEntries                   // the list is empty
    | TooManyEntries(max: nat)    // the list is longer than the palette

  /** The number parser the program relies on (`strconv.ParseFloat`), taken as a given:
      `Some(d)` for a token that reads as the number `d`, `None` for one that does not. */
  type FloatParser = string -> Option<real>

  /** A percentage the chart accepts. */
  predicate InRange(d: real) {
    0.0 <= d <= 100.0
  }

  /** A list of percentages the chart can draw: one to `MaxEntries` of them, each in range. */
  predicate ValidFunnel(funnel: seq<real>) {
    && 1 <= |funnel| <= MaxEntries
    && forall i :: 0 <= i < |funnel| ==> InRange(funnel[i])
  }

  /** Token `entry` reads as an accepted percentage. */
  predicate EntryOk(entry: string, parseFloat: FloatParser) {
    parseFloat(entry).Some? && InRange(parseFloat(entry).value)
  }

  /** Position `i` holds the first token that is refused. */
  predicate FirstBadEntry(entries: seq<string>, parseFloat: FloatParser, i: int) {
    && 0 <= i < |entries|
    && !EntryOk(entries[i], parseFloat)
    && forall k :: 0 <= k < i ==> EntryOk(entries[k], parseFloat)
  }

  /** Reads one token: a parse failure is reported before the range check. */
  function ParseEntry(entry: string, parseFloat: FloatParser): (r: Result<real, FunnelError>)
    ensures r.Success? <==> EntryOk(entry, parseFloat)
    ensures r.Success? ==> parseFloat(entry) == Some(r.value)
    ensures parseFloat(entry).None? ==> r == Failure(NotANumber(entry))
    ensures parseFloat(entry).Some? && !InRange(parseFloat(entry).value) ==>
              r == Failure(OutOfRange(parseFloat(entry).value))
  {
    match parseFloat(entry)
    case None => Failure(NotANumber(entry))
    case Some(d) =>
      if d > 100.0 || d < 0.0 then Failure(OutOfRange(d))
      else Success(d)
  }

  /** Reads every token in order, stopping at the first one refused. */
  function ParseEntries(entries: seq<string>, parseFloat: FloatParser): (r: Result<seq<real>, FunnelError>)
    ensures r.Success? <==> forall i :: 0 <= i < |entries| ==> EntryOk(entries[i], parseFloat)
    ensures r.Success? ==> |r.value| == |entries|
    ensures r.Success? ==> forall i :: 0 <= i < |entries| ==> parseFloat(entries[i]) == Some(r.value[i])
    ensures r.Success? ==> forall i :: 0 <= i < |r.value| ==> InRange(r.value[i])
    ensures r.Failure? ==> exists i :: FirstBadEntry(entries, parseFloat, i) &&
                                       r == Failure(ParseEntry(entries[i], parseFloat).error)
    decreases |entries|
  {
    if |entries| == 0 then Success([])
    else
      match ParseEntry(entries[0], parseFloat)
      case Failure(e) =>
        assert FirstBadEntry(entries, parseFloat, 0);
        Failure(e)
      case Success(d) =>
        var rest := ParseEntries(entries[1..], parseFloat);
        match rest
        case Failure(e) =>
          var i :| FirstBadEntry(entries[1..], parseFloat, i) &&
                   rest == Failure(ParseEntry(entries[1..][i], parseFloat).error);
          assert FirstBadEntry(entries, parseFloat, i + 1) by {
            forall k | 0 <= k < i + 1
              ensures EntryOk(entries[k], parseFloat)
            {
              if k > 0 {
                assert entries[k] == entries[1..][k - 1];
              }
            }
          }
          Failure(e)
        case Success(ds) =>
          assert forall i :: 1 <= i < |entries| ==> entries[i] == entries[1..][i - 1];
          Success([d] + ds)
  }

  /** `parseFunnel`: per-entry errors first, then the empty and the too-long list. */
  function ParseFunnel(entries: seq<string>, parseFloat: FloatParser): (r: Result<seq<real>, FunnelError>)
    ensures r.Success? <==>
              && 1 <= |entries| <= MaxEntries
              && forall i :: 0 <= i < |entries| ==> EntryOk(entries[i], parseFloat)
    ensures r.Success? ==> ValidFunnel(r.value) && |r.value| == |entries|
    ensures r.Success? ==> forall i :: 0 <= i < |entries| ==> parseFloat(entries[i]) == Some(r.value[i])
    ensures |entries| == 0 ==> r == Failure(NoEntries)
    ensures (forall i :: 0 <= i < |entries| ==> EntryOk(entries[i], parseFloat)) && |entries| > MaxEntries ==>
              r == Failure(TooManyEntries(MaxEntries))
  {
    var ret :- ParseEntries(entries, parseFloat);
    if |ret| == 0 then Failure(NoEntries)
    else if |ret| > MaxEntries then Failure(TooManyEntries(MaxEntries))
    else Success(ret)
  }

  /** The first refused token decides the outcome, however many tokens there are: its own
      error is reported, never the empty-list or the too-many error. */
  lemma {:induction false} EntryErrorTakesPrecedence(entries: seq<string>, parseFloat: FloatParser, i: int)
    requires FirstBadEntry(entries, parseFloat, i)
    ensures ParseFunnel(entries, parseFloat) == Failure(ParseEntry(entries[i], parseFloat).error)
    ensures ParseFunnel(entries, parseFloat).error.NotANumber? || ParseFunnel(entries, parseFloat).error.OutOfRange?
  {
    var r := ParseEntries(entries, parseFloat);
    var j :| FirstBadEntry(entries, parseFloat, j) && r == Failure(ParseEntry(entries[j], parseFloat).error);
    FirstBadEntryUnique(entries, parseFloat, i, j);
  }

  /** There is only one first refused token. */
  lemma FirstBadEntryUnique(entries: seq<string>, parseFloat: FloatParser, i: int, j: int)
    requires FirstBadEntry(entries, parseFloat, i)
    requires FirstBadEntry(entries, parseFloat, j)
    ensures i == j
  {
  }

  /** A token that is refused somewhere in the list makes the whole list fail with a
      per-entry error; with eleven tokens, that error wins over the too-many error. */
  lemma {:induction false} BadEntryFails(entries: seq<string>, parseFloat: FloatParser, k: int)
    requires 0 <= k < |entries| && !EntryOk(entries[k], parseFloat)
    ensures ParseFunnel(entries, parseFloat).Failure?
    ensures ParseFunnel(entries, parseFloat).error.NotANumber? || ParseFunnel(entries, parseFloat).error.OutOfRange?
    ensures ParseFunnel(entries, parseFloat).error != TooManyEntries(MaxEntries)
  {
    var i := FirstBadExists(entries, parseFloat, 0, k);
    EntryErrorTakesPrecedence(entries, parseFloat, i);
  }

  /** Some token at or before `k`, and at or after `from`, is the first refused one, provided
      every token before `from` is accepted and token `k` is refused. */
  lemma {:induction false} FirstBadExists(entries: seq<string>, parseFloat: FloatParser, from: nat, k: int)
    returns (i: int)
    requires from <= k < |entries| && !EntryOk(entries[k], parseFloat)
    requires forall m :: 0 <= m < from ==> EntryOk(entries[m], parseFloat)
    ensures from <= i <= k
    ensures FirstBadEntry(entries, parseFloat, i)
    decreases k - from
  {
    if !EntryOk(entries[from], parseFloat) {
      i := from;
    } else {
      i := FirstBadExists(entries, parseFloat, from + 1, k);
    }
  }

  /** Validation returns exactly the numbers the tokens spell, in the same order: when each
      token reads as the corresponding accepted percentage, the list comes back unchanged. */
  lemma ValidEntriesRoundTrip(entries: seq<string>, parseFloat: FloatParser, funnel: seq<real>)
    requires ValidFunnel(funnel)
    requires |entries| == |funnel|
    requires forall i :: 0 <= i < |entries| ==> parseFloat(entries[i]) == Some(funnel[i])
    ensures ParseFunnel(entries, parseFloat) == Success(funnel)
  {
    var r := ParseFunnel(entries, parseFloat);
    assert forall i :: 0 <= i < |entries| ==> EntryOk(entries[i], parseFloat);
    assert r.Success?;
    assert r.value == funnel;
  }
}
