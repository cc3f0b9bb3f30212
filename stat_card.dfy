/**
 * The stats grid and its cards (src/components/charts/CyberStatCard.tsx):
 * how many columns the grid uses for its width, the label each key gets,
 * the colour each card gets, and the trend line under a card's value.
 */
module StatCard {
  import opened Wrappers
  import opened Strings

  // ---- Columns ----

  /** About 180 pixels per card, between one and five columns. */
  function ColumnsFor(width: nat): (c: nat)
    ensures 1 <= c <= 5
  {
    var fit := width / 180;
    if fit < 1 then 1 else if fit > 5 then 5 else fit
  }

  /** The breakpoints: 900 and up gives five columns, then 720, 540 and 360 one fewer each. */
  lemma ColumnBreakpoints(width: nat)
    ensures ColumnsFor(width) == 5 <==> width >= 900
    ensures ColumnsFor(width) == 4 <==> 720 <= width < 900
    ensures ColumnsFor(width) == 3 <==> 540 <= width < 720
    ensures ColumnsFor(width) == 2 <==> 360 <= width < 540
    ensures ColumnsFor(width) == 1 <==> width < 360
  {
  }

  /** A wider grid never has fewer columns. */
  lemma ColumnsMonotone(a: nat, b: nat)
    requires a <= b
    ensures ColumnsFor(a) <= ColumnsFor(b)
  {
    assert a / 180 <= b / 180;
  }

  /** The grid's `columns` state. */
  class StatsGrid {
    var columns: nat

    /** Two columns until the container has been measured. */
    constructor ()
      ensures columns == 2
    {
      columns := 2;
    }

    /**
     * `updateColumns`: with the container mounted (`measured` holds its
     * `offsetWidth`), pick the column count by the breakpoint ladder;
     * without it, keep the current count.
     */
    method UpdateColumns(measured: Option<nat>)
      modifies this
      ensures measured.None? ==> columns == old(columns)
      ensures measured.Some? ==> columns == ColumnsFor(measured.value)
    {
      if measured.Some? {
        var width := measured.value;
        if width >= 900 {
          columns := 5;
        } else if width >= 720 {
          columns := 4;
        } else if width >= 540 {
          columns := 3;
        } else if width >= 360 {
          columns := 2;
        } else {
          columns := 1;
        }
      }
    }
  }

  // ---- Labels ----

  /** The characters the pattern `[A-Z]` matches. */
  predicate IsUpper(c: char) {
    'A' <= c <= 'Z'
  }

  predicate NoUpper(s: string) {
    forall i :: 0 <= i < |s| ==> !IsUpper(s[i])
  }

  /** What the replacement makes of one character: a capital gets a space before it. */
  function SpacedChar(c: char): string {
    if IsUpper(c) then [' ', c] else [c]
  }

  /** `s.replace(/([A-Z])/g, ' $1')`: a space before every capital letter. */
  function SpaceBeforeCapitals(s: string): (r: string)
    ensures NoUpper(s) ==> r == s
    ensures |r| > 0 <==> |s| > 0
    ensures |s| > 0 ==> r[|r| - 1] == s[|s| - 1]
    ensures |s| > 0 && IsUpper(s[0]) ==> |r| > 1 && r[0] == ' ' && r[1] == s[0]
    ensures |s| > 0 && !IsUpper(s[0]) ==> r[0] == s[0]
    decreases |s|
  {
    if s == [] then []
    else SpacedChar(s[0]) + SpaceBeforeCapitals(s[1..])
  }

  /** Drop every space that stands right before a capital letter. */
  function RemoveInsertedSpaces(t: string): string
    decreases |t|
  {
    if t == [] then []
    else if |t| >= 2 && t[0] == ' ' && IsUpper(t[1]) then [t[1]] + RemoveInsertedSpaces(t[2..])
    else [t[0]] + RemoveInsertedSpaces(t[1..])
  }

  /** Inserting the spaces loses nothing: dropping them again gives back the key. */
  lemma {:induction false} SpacingIsReversible(s: string)
    ensures RemoveInsertedSpaces(SpaceBeforeCapitals(s)) == s
    decreases |s|
  {
    if s != [] {
      var c, tail := s[0], s[1..];
      var rest := SpaceBeforeCapitals(tail);
      assert s == [c] + tail;
      SpacingOfFirst(c, tail);
      SpacingIsReversible(tail);
      RemoveAfterSpaced(c, rest);
    }
  }

  /** Dropping the inserted spaces undoes the spacing of one character before a text that does not start with a capital. */
  lemma RemoveAfterSpaced(c: char, rest: string)
    requires rest == [] || !IsUpper(rest[0])
    ensures RemoveInsertedSpaces(SpacedChar(c) + rest) == [c] + RemoveInsertedSpaces(rest)
  {
    if IsUpper(c) {
      var t := [' ', c] + rest;
      assert t[0] == ' ' && t[1] == c && t[2..] == rest;
    } else {
      var t := [c] + rest;
      assert t[0] == c && t[1..] == rest;
    }
  }

  /** The label a stat key gets: spaced before capitals, then trimmed. */
  function Label(key: string): (text: string)
    ensures |text| > 0 ==> !IsJsWhitespace(text[0]) && !IsJsWhitespace(text[|text| - 1])
  {
    Trim(SpaceBeforeCapitals(key))
  }

  /** A key with no capitals and no surrounding white space is its own label. */
  lemma PlainKeyIsItsOwnLabel(key: string)
    requires NoUpper(key)
    requires |key| > 0 ==> !IsJsWhitespace(key[0]) && !IsJsWhitespace(key[|key| - 1])
    ensures Label(key) == key
  {
    TrimUnpadded(key);
  }

  /** Spacing a concatenation spaces each part. */
  lemma {:induction false} SpacingDistributes(a: string, b: string)
    ensures SpaceBeforeCapitals(a + b) == SpaceBeforeCapitals(a) + SpaceBeforeCapitals(b)
    decreases |a|
  {
    if a == [] {
      assert a + b == b;
    } else {
      var c, tail := a[0], a[1..];
      var h := SpacedChar(c);
      assert a == [c] + tail;
      assert a + b == [c] + (tail + b);
      calc {
        SpaceBeforeCapitals(a + b);
        { SpacingOfFirst(c, tail + b); }
        h + SpaceBeforeCapitals(tail + b);
        { SpacingDistributes(tail, b); }
        h + (SpaceBeforeCapitals(tail) + SpaceBeforeCapitals(b));
        (h + SpaceBeforeCapitals(tail)) + SpaceBeforeCapitals(b);
        { SpacingOfFirst(c, tail); }
        SpaceBeforeCapitals(a) + SpaceBeforeCapitals(b);
      }
    }
  }

  /** Spacing works on the first character on its own. */
  lemma SpacingOfFirst(c: char, tail: string)
    ensures SpaceBeforeCapitals([c] + tail) == SpacedChar(c) + SpaceBeforeCapitals(tail)
  {
    assert ([c] + tail)[0] == c && ([c] + tail)[1..] == tail;
  }

  /** Trimming a space, a non-blank character and a text that ends non-blank drops just that space. */
  lemma TrimAfterSpace(c: char, rest: string)
    requires !IsJsWhitespace(c) && (rest != [] ==> !IsJsWhitespace(rest[|rest| - 1]))
    ensures Trim([' ', c] + rest) == [c] + rest
  {
    var u := [c] + rest;
    assert [' ', c] + rest == [' '] + u;
    assert u[0] == c && u[|u| - 1] == if rest == [] then c else rest[|rest| - 1];
    TrimDropsOneSpace(u);
  }

  /**
   * A key without surrounding white space can be read back from its label:
   * only the inserted spaces are new, and trimming drops at most the one
   * before a leading capital.
   */
  lemma {:induction false} LabelRecoversKey(key: string)
    requires |key| > 0 ==> !IsJsWhitespace(key[0]) && !IsJsWhitespace(key[|key| - 1])
    ensures RemoveInsertedSpaces(Label(key)) == key
  {
    if key != [] && IsUpper(key[0]) {
      var c, tail := key[0], key[1..];
      var rest := SpaceBeforeCapitals(tail);
      assert Label(key) == [c] + rest by { LabelOfCapitalStart(key); }
      assert RemoveInsertedSpaces([c] + rest) == [c] + RemoveInsertedSpaces(rest) by {
        KeepsNonSpace(c, rest);
      }
      SpacingIsReversible(tail);
      assert key == [c] + tail;
    } else {
      var t := SpaceBeforeCapitals(key);
      SpacingIsReversible(key);
      TrimUnpadded(t);
    }
  }

  /** A key that starts with a capital is labelled with the capital, then the spaced rest. */
  lemma LabelOfCapitalStart(key: string)
    requires key != [] && IsUpper(key[0]) && !IsJsWhitespace(key[|key| - 1])
    ensures Label(key) == [key[0]] + SpaceBeforeCapitals(key[1..])
  {
    var c, tail := key[0], key[1..];
    var rest := SpaceBeforeCapitals(tail);
    var t := SpaceBeforeCapitals(key);
    assert t == [' ', c] + rest by {
      assert key == [c] + tail;
      SpacingOfFirst(c, tail);
    }
    assert rest != [] ==> rest[|rest| - 1] == key[|key| - 1];
    TrimAfterSpace(c, rest);
  }

  /** Dropping the inserted spaces keeps a leading character that is not a space. */
  lemma KeepsNonSpace(c: char, rest: string)
    requires c != ' '
    ensures RemoveInsertedSpaces([c] + rest) == [c] + RemoveInsertedSpaces(rest)
  {
    assert ([c] + rest)[0] == c && ([c] + rest)[1..] == rest;
  }

  /** A capital followed by no capitals gets exactly one space. */
  lemma SpacingOfHump(capital: char, tail: string)
    requires IsUpper(capital) && NoUpper(tail)
    ensures SpaceBeforeCapitals([capital] + tail) == [' ', capital] + tail
  {
    assert ([capital] + tail)[0] == capital && ([capital] + tail)[1..] == tail;
  }

  /** Spacing a camel-case key with one inner capital inserts one space. */
  lemma SpacingOfCamelCase(head: string, capital: char, tail: string)
    requires NoUpper(head) && NoUpper(tail) && IsUpper(capital)
    ensures SpaceBeforeCapitals(head + [capital] + tail) == head + [' ', capital] + tail
  {
    assert head + [capital] + tail == head + ([capital] + tail);
    SpacingDistributes(head, [capital] + tail);
    SpacingOfHump(capital, tail);
    assert head + [' ', capital] + tail == head + ([' ', capital] + tail);
  }

  /** The spaced key starts with the head's first character and ends with a non-blank one. */
  lemma SpacedCamelCaseUnpadded(head: string, capital: char, tail: string)
    requires IsUpper(capital)
    requires head != [] && !IsJsWhitespace(head[0])
    requires tail != [] ==> !IsJsWhitespace(tail[|tail| - 1])
    ensures Trim(head + [' ', capital] + tail) == head + [' ', capital] + tail
  {
    var text := head + [' ', capital] + tail;
    assert text[0] == head[0];
    assert !IsJsWhitespace(text[|text| - 1]) by {
      if tail == [] {
        assert text[|text| - 1] == capital;
      } else {
        assert text[|text| - 1] == tail[|tail| - 1];
      }
    }
    TrimUnpadded(text);
  }

  /**
   * A camel-case key with one inner capital gets one space before it, as
   * `cpuUsage` becomes `cpu Usage`.
   */
  lemma CamelCaseLabel(head: string, capital: char, tail: string)
    requires NoUpper(head) && NoUpper(tail) && IsUpper(capital)
    requires head != [] && !IsJsWhitespace(head[0])
    requires tail != [] ==> !IsJsWhitespace(tail[|tail| - 1])
    ensures Label(head + [capital] + tail) == head + [' ', capital] + tail
  {
    SpacingOfCamelCase(head, capital, tail);
    SpacedCamelCaseUnpadded(head, capital, tail);
  }

  // ---- Colours ----

  datatype StatColour = Cyan | Pink | Green | Purple | Yellow

  /** The grid's colour cycle. */
  const Palette: seq<StatColour> := [Cyan, Pink, Green, Purple, Yellow]

  /** `COLOR_MAP[c].primary`. */
  function Primary(c: StatColour): (s: string)
    ensures |s| == 7 && s[0] == '#'
    ensures forall i :: 1 <= i < 7 ==> '0' <= s[i] <= '9' || 'a' <= s[i] <= 'f'
  {
    match c
    case Cyan => "#00f5ff"
    case Pink => "#ff006e"
    case Green => "#00ff9f"
    case Purple => "#9d4edd"
    case Yellow => "#ffd60a"
  }

  /** The five colours look different: no two palette entries share a primary colour. */
  lemma PrimaryColoursDistinct(c: StatColour, d: StatColour)
    ensures Primary(c) == Primary(d) <==> c == d
  {
  }

  /** The props the grid gives one card. */
  datatype CardProps = CardProps(title: string, value: real, colour: StatColour)

  /** One card per entry, in entry order, colours taken round the palette. */
  function GridCards(entries: seq<(string, real)>): (cards: seq<CardProps>)
    ensures |cards| == |entries|
    ensures forall i :: 0 <= i < |entries| ==>
              cards[i].title == Label(entries[i].0) && cards[i].value == entries[i].1
    ensures forall i :: 0 <= i < |entries| ==> cards[i].colour == Palette[i % |Palette|]
  {
    seq(|entries|, i requires 0 <= i < |entries| =>
          CardProps(Label(entries[i].0), entries[i].1, Palette[i % |Palette|]))
  }

  /** Two cards share a colour exactly when their positions are congruent modulo five. */
  lemma ColourCycle(entries: seq<(string, real)>, i: nat, j: nat)
    requires i < |entries| && j < |entries|
    ensures GridCards(entries)[i].colour == GridCards(entries)[j].colour <==> i % 5 == j % 5
  {
    var a, b := i % 5, j % 5;
    assert Palette[a] == Palette[b] ==> a == b by {
      if Palette[a] == Palette[b] {
        assert a == 0 || a == 1 || a == 2 || a == 3 || a == 4;
        assert b == 0 || b == 1 || b == 2 || b == 3 || b == 4;
      }
    }
  }

  // ---- Trend ----

  const UpArrow := '\U{25B2}'
  const DownArrow := '\U{25BC}'

  /** The trend line: arrow, colour and the magnitude shown before the percent sign. */
  datatype Trend = Trend(arrow: char, colour: string, magnitude: real)

  /** The trend line for an optional trend; the two colours are the palette's green and pink. */
  function TrendIndicator(trend: Option<real>): (t: Option<Trend>)
    ensures t.None? <==> trend.None?
    ensures t.Some? ==> (t.value.arrow == UpArrow <==> trend.value >= 0.0)
    ensures t.Some? ==> (t.value.arrow == DownArrow <==> trend.value < 0.0)
    ensures t.Some? ==> (t.value.colour == Primary(Green) <==> trend.value >= 0.0)
    ensures t.Some? ==> (t.value.colour == Primary(Pink) <==> trend.value < 0.0)
    ensures t.Some? ==> t.value.magnitude >= 0.0
  {
    if trend.None? then None
    else
      var x := trend.value;
      Some(Trend(if x >= 0.0 then UpArrow else DownArrow,
                 if x >= 0.0 then "#00ff9f" else "#ff006e",
                 if x < 0.0 then -x else x))
  }

  /** The arrow and the magnitude together give back the trend. */
  lemma TrendRecoversValue(x: real)
    ensures var t := TrendIndicator(Some(x)).value;
            x == (if t.arrow == UpArrow then t.magnitude else -t.magnitude)
  {
  }
}
