/**
  `shortenTimeString` of the chat widget: drops a zero hour from an
  `hh:mm:ss` time string and strips leading zeros from the first part it keeps.
 */
module Helpers {
  import opened Wrappers
  import opened JsValue
  import opened JsString

  /**
    `shortenTimeString(time)`. A falsy or non-string input gives `''`; a string that
    does not split into three `:`-separated parts comes back as it is.
   */
  function ShortenTimeString(time: Value): string
  {
    if !Truthy(time) || !time.Str? then ""
    else
      var parts := Split(time.s, ':');
      if |parts| == 3 then
        if ParseInt(parts[0]) == Some(0) then NumberText(ParseInt(parts[1])) + ":" + parts[2]
        else NumberText(ParseInt(parts[0])) + ":" + parts[1] + ":" + parts[2]
      else time.s
  }

  /** Interpolated numbers hold no colon. */
  lemma NumberTextColonFree(n: Option<int>)
    ensures Count(NumberText(n), ':') == 0
  {
    match n
    case None =>
      NoCharCount("NaN", ':');
    case Some(v) =>
      IntToStringCount(v, ':');
  }

  /** Two colon-free pieces joined by one colon split back into those pieces. */
  lemma SplitTwo(a: string, b: string)
    requires Count(a, ':') == 0 && Count(b, ':') == 0
    ensures Split(a + ":" + b, ':') == [a, b]
  {
    assert a + ":" + b == a + [':'] + b;
    SplitPrefix(a, ':', b);
    SplitFree(b, ':');
  }

  /** Three colon-free pieces joined by colons split back into those pieces. */
  lemma SplitThree(a: string, b: string, c: string)
    requires Count(a, ':') == 0 && Count(b, ':') == 0 && Count(c, ':') == 0
    ensures Split(a + ":" + b + ":" + c, ':') == [a, b, c]
  {
    assert a + ":" + b + ":" + c == a + [':'] + (b + ":" + c);
    SplitPrefix(a, ':', b + ":" + c);
    SplitTwo(b, c);
  }

  /** A falsy or non-string input gives the empty string. */
  lemma FalsyOrNonStringIsEmpty(time: Value)
    requires !Truthy(time) || !time.Str?
    ensures ShortenTimeString(time) == ""
  {
  }

  /** A string without exactly three colon-separated parts is returned unchanged. */
  lemma OtherStringsUnchanged(s: string)
    requires s != "" && |Split(s, ':')| != 3
    ensures ShortenTimeString(Str(s)) == s
  {
  }

  /** Exactly two colons make three parts: the condition of the shortening branches. */
  lemma ThreePartsIffTwoColons(s: string)
    ensures |Split(s, ':')| == 3 <==> Count(s, ':') == 2
  {
    SplitLength(s, ':');
  }

  /**
    A three-part time: with a zero hour the result splits into the renormalised
    minutes and the verbatim seconds; otherwise into the renormalised hours and the
    verbatim minutes and seconds. So it holds one colon or two.
   */
  lemma ThreePartResult(s: string)
    requires |Split(s, ':')| == 3
    ensures var p := Split(s, ':');
      var r := ShortenTimeString(Str(s));
      if ParseInt(p[0]) == Some(0) then
        Split(r, ':') == [NumberText(ParseInt(p[1])), p[2]] && Count(r, ':') == 1
      else
        Split(r, ':') == [NumberText(ParseInt(p[0])), p[1], p[2]] && Count(r, ':') == 2
  {
    var p := Split(s, ':');
    SplitPartsFree(s, ':');
    assert Count(p[1], ':') == 0 && Count(p[2], ':') == 0;
    var r := ShortenTimeString(Str(s));
    if ParseInt(p[0]) == Some(0) {
      NumberTextColonFree(ParseInt(p[1]));
      SplitTwo(NumberText(ParseInt(p[1])), p[2]);
    } else {
      NumberTextColonFree(ParseInt(p[0]));
      SplitThree(NumberText(ParseInt(p[0])), p[1], p[2]);
    }
    SplitLength(r, ':');
  }

  /** Rendering a `parseInt` result as text and parsing it again gives the same result. */
  lemma ParseNumberText(n: Option<int>)
    ensures ParseInt(NumberText(n)) == n
  {
    match n
    case None => ParseIntOfNaN();
    case Some(v) => ParseIntOfIntToString(v);
  }

  /** Shortening an already shortened time changes nothing more. */
  lemma ShortenIdempotent(time: Value)
    ensures ShortenTimeString(Str(ShortenTimeString(time))) == ShortenTimeString(time)
  {
    var r := ShortenTimeString(time);
    if Truthy(time) && time.Str? && |Split(time.s, ':')| == 3 {
      var p := Split(time.s, ':');
      ThreePartResult(time.s);
      if ParseInt(p[0]) != Some(0) {
        var q := Split(r, ':');
        ParseNumberText(ParseInt(p[0]));
        assert q[0] == NumberText(ParseInt(p[0]));
        assert ParseInt(q[0]) == ParseInt(p[0]);
      }
    }
  }
}
