/**
 * CSV field escaping used when expenses are exported (escapeCsvField), after
 * rules 6 and 7 of section 2 of RFC 4180: a field that contains a comma, a
 * double quote or a line feed is enclosed in double quotes and each double
 * quote inside it is doubled; any other field is written as it is.
 */
module Csv {
  import opened Wrappers

  const Quote: char := '"'
  const Comma: char := ','
  const LineFeed: char := '\n'

  /** The characters that make a field need quoting: comma, double quote, line feed (not carriage return). */
  predicate NeedsQuoting(s: string) {
    Comma in s || Quote in s || LineFeed in s
  }

  function CountQuotes(s: string): nat {
    if s == [] then 0 else (if s[0] == Quote then 1 else 0) + CountQuotes(s[1..])
  }

  /** Every double quote is written twice; other characters are kept. */
  function DoubleQuotes(s: string): (r: string)
    ensures |r| == |s| + CountQuotes(s)
    ensures Quote in s <==> Quote in r
  {
    if s == [] then []
    else (if s[0] == Quote then [Quote, Quote] else [s[0]]) + DoubleQuotes(s[1..])
  }

  /**
   * The escaped form of one field; `None` is a null string. A field comes out
   * unchanged exactly when it holds no comma, double quote or line feed.
   */
  function EscapeCsvField(field: Option<string>): (r: string)
    ensures field.None? ==> r == ""
    ensures field.Some? ==> (r == field.value <==> !NeedsQuoting(field.value))
  {
    match field
    case None => ""
    case Some(s) =>
      if NeedsQuoting(s) then [Quote] + DoubleQuotes(s) + [Quote] else s
  }

  /**
   * The text between the enclosing quotes of a well-formed quoted field:
   * every double quote in it is part of a doubled pair.
   */
  predicate PairedQuotes(t: string) {
    if t == [] then true
    else if t[0] == Quote then |t| >= 2 && t[1] == Quote && PairedQuotes(t[2..])
    else PairedQuotes(t[1..])
  }

  /** Reverses the doubling: each `""` becomes `"`. */
  function CollapseQuotes(t: string): string {
    if |t| >= 2 && t[0] == Quote && t[1] == Quote then [Quote] + CollapseQuotes(t[2..])
    else if t == [] then []
    else [t[0]] + CollapseQuotes(t[1..])
  }

  /** How a reader recovers a field: a quoted field loses its quotes and has `""` collapsed. */
  function DecodeField(r: string): string {
    if |r| >= 2 && r[0] == Quote && r[|r| - 1] == Quote then CollapseQuotes(r[1..|r| - 1])
    else r
  }

  lemma {:induction false} DoubledIsPaired(s: string)
    ensures PairedQuotes(DoubleQuotes(s))
    decreases |s|
  {
    if s != [] {
      DoubledIsPaired(s[1..]);
      var r := DoubleQuotes(s[1..]);
      if s[0] == Quote {
        assert DoubleQuotes(s) == [Quote, Quote] + r;
        assert DoubleQuotes(s)[2..] == r;
      } else {
        assert DoubleQuotes(s) == [s[0]] + r;
        assert DoubleQuotes(s)[1..] == r;
      }
    }
  }

  /** Collapsing undoes doubling. */
  lemma {:induction false} CollapseDoubled(s: string)
    ensures CollapseQuotes(DoubleQuotes(s)) == s
    decreases |s|
  {
    if s != [] {
      CollapseDoubled(s[1..]);
      var r := DoubleQuotes(s[1..]);
      if s[0] == Quote {
        assert DoubleQuotes(s) == [Quote, Quote] + r;
        assert DoubleQuotes(s)[2..] == r;
      } else {
        assert DoubleQuotes(s) == [s[0]] + r;
        assert DoubleQuotes(s)[1..] == r;
        assert Quote !in [s[0]];
        if |r| >= 1 {
          assert DoubleQuotes(s)[0] != Quote;
        }
      }
    }
  }

  /** Doubling undoes collapsing on every well-formed quoted body: the two are inverse bijections. */
  lemma {:induction false} DoubleCollapsed(t: string)
    requires PairedQuotes(t)
    ensures DoubleQuotes(CollapseQuotes(t)) == t
    decreases |t|
  {
    if t != [] {
      if t[0] == Quote {
        DoubleCollapsed(t[2..]);
        assert t == [Quote, Quote] + t[2..];
      } else {
        DoubleCollapsed(t[1..]);
        assert t == [t[0]] + t[1..];
      }
    }
  }

  /** A null field is written as the empty string. */
  lemma EscapeNull()
    ensures EscapeCsvField(None) == ""
  {
  }

  /** A field without comma, double quote or line feed is written unchanged. */
  lemma EscapePlain(s: string)
    requires !NeedsQuoting(s)
    ensures EscapeCsvField(Some(s)) == s
  {
  }

  /** A field that needs quoting is enclosed in quotes, gaining two characters plus one per double quote. */
  lemma EscapeQuoted(s: string)
    requires NeedsQuoting(s)
    ensures var r := EscapeCsvField(Some(s));
      && |r| == |s| + 2 + CountQuotes(s)
      && r[0] == Quote && r[|r| - 1] == Quote
      && PairedQuotes(r[1..|r| - 1])
      && CollapseQuotes(r[1..|r| - 1]) == s
  {
    var r := EscapeCsvField(Some(s));
    assert r[1..|r| - 1] == DoubleQuotes(s);
    DoubledIsPaired(s);
    CollapseDoubled(s);
  }

  /**
   * Every output is either free of comma, double quote and line feed, or a
   * well-formed quoted field. A carriage return is not a trigger, so a field
   * holding one may still be written unquoted.
   */
  lemma EscapeWellFormed(field: Option<string>)
    ensures var r := EscapeCsvField(field);
      || !NeedsQuoting(r)
      || (|r| >= 2 && r[0] == Quote && r[|r| - 1] == Quote && PairedQuotes(r[1..|r| - 1]))
  {
    if field.Some? && NeedsQuoting(field.value) {
      EscapeQuoted(field.value);
    }
  }

  /** Round trip: reading back an escaped field yields the original text (null reads back as empty). */
  lemma EscapeRoundTrip(field: Option<string>)
    ensures DecodeField(EscapeCsvField(field)) == if field.Some? then field.value else ""
  {
    match field
    case None =>
    case Some(s) =>
      if NeedsQuoting(s) {
        EscapeQuoted(s);
      } else if |s| >= 2 {
        assert s[0] in s;
      }
  }
}
