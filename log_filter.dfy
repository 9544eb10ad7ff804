/**
 * The search box of the logs page (js/logs.js): each keystroke shows the table rows whose
 * text contains the query, ignoring case and the query's surrounding spaces, and hides the rest.
 */
module LogFilter {
  import opened JsText

  /** `event.target.value.trim().toLowerCase()`. */
  function Query(raw: string): string {
    Lower(Trim(raw))
  }

  /** `tr.textContent.toLowerCase().includes(q)`: the row's `display` is `''` rather than `'none'`. */
  predicate RowVisible(text: string, query: string) {
    Includes(Lower(text), query)
  }

  /** The display of every row for a query: row `i` is decided by its own text alone. */
  function Visibility(texts: seq<string>, query: string): (r: seq<bool>)
    ensures |r| == |texts|
    ensures forall i :: 0 <= i < |texts| ==> r[i] == RowVisible(texts[i], query)
  {
    seq(|texts|, i requires 0 <= i < |texts| => RowVisible(texts[i], query))
  }

  /** A row shows exactly when the query occurs somewhere in its lower-cased text. */
  lemma RowVisibleIffOccurs(text: string, query: string)
    ensures RowVisible(text, query) <==> exists k: nat :: OccursAt(Lower(text), query, k)
  {
    IncludesIffOccurs(Lower(text), query);
    assert RowVisible(text, query) == Includes(Lower(text), query);
  }

  /** Rows are decided independently: splitting the table splits the flags, and the order is kept. */
  lemma VisibilityOfAppend(a: seq<string>, b: seq<string>, query: string)
    ensures Visibility(a + b, query) == Visibility(a, query) + Visibility(b, query)
  {
    var l, r := Visibility(a + b, query), Visibility(a, query) + Visibility(b, query);
    forall i | 0 <= i < |l|
      ensures l[i] == r[i]
    {
      if i < |a| {
        assert (a + b)[i] == a[i];
      } else {
        assert (a + b)[i] == b[i - |a|];
      }
    }
  }

  /** A blank query (empty or only spaces) shows every row. */
  lemma BlankQueryShowsAll(texts: seq<string>, raw: string)
    requires Trim(raw) == []
    ensures forall i :: 0 <= i < |texts| ==> Visibility(texts, Query(raw))[i]
  {
    forall i | 0 <= i < |texts|
      ensures RowVisible(texts[i], Query(raw))
    {
      IncludesEmpty(Lower(texts[i]));
    }
  }

  /** Typing more can only hide rows: a row that shows for `q + more` shows for `q`. */
  lemma LongerQueryNarrows(text: string, q: string, more: string)
    ensures RowVisible(text, q + more) ==> RowVisible(text, q)
  {
    var s := Lower(text);
    if Includes(s, q + more) {
      IncludesIffOccurs(s, q + more);
      var k: nat :| OccursAt(s, q + more, k);
      assert s[k..k + |q|] == (q + more)[..|q|] == q;
      assert OccursAt(s, q, k);
      IncludesIffOccurs(s, q);
    }
  }

  /** The case of a row's text does not matter. */
  lemma RowCaseIgnored(text: string, query: string)
    ensures RowVisible(Lower(text), query) == RowVisible(text, query)
  {
    LowerIdempotent(text);
  }

  /** Nor does the case of the query: a query typed in capitals selects the same rows. */
  lemma QueryCaseIgnored(raw: string)
    ensures Query(Lower(raw)) == Query(raw)
  {
    TrimLowerCommute(raw);
    LowerIdempotent(Trim(raw));
  }

  /** The table of the logs page: the rows' texts, their visibility, and whether the handler is attached. */
  class LogTable {
    const texts: seq<string>
    const display: array<bool>
    const handlerAttached: bool

    /**
     * The page script: the `input` handler is attached only when the search box exists and
     * the table has rows; rows start shown.
     */
    constructor (hasSearchInput: bool, rowTexts: seq<string>)
      ensures texts == rowTexts && display.Length == |rowTexts| && fresh(display)
      ensures handlerAttached <==> hasSearchInput && |rowTexts| > 0
      ensures forall i :: 0 <= i < display.Length ==> display[i]
    {
      texts := rowTexts;
      display := new bool[|rowTexts|](_ => true);
      handlerAttached := hasSearchInput && |rowTexts| > 0;
    }

    predicate Valid()
      reads this
    {
      display.Length == |texts|
    }

    /** An `input` event with the box's value `raw`: every row's display is set in place, in order. */
    method OnInput(raw: string)
      requires Valid()
      modifies display
      ensures handlerAttached ==> display[..] == Visibility(texts, Query(raw))
      ensures !handlerAttached ==> display[..] == old(display[..])
    {
      if !handlerAttached {
        return;
      }
      var q := Query(raw);
      var i := 0;
      while i < display.Length
        invariant 0 <= i <= display.Length
        invariant forall j :: 0 <= j < i ==> display[j] == RowVisible(texts[j], q)
        invariant forall j :: i <= j < display.Length ==> display[j] == old(display[j])
      {
        display[i] := RowVisible(texts[i], q);
        i := i + 1;
      }
    }
  }
}
