/** `_clean_details` of budged/parser.py: the three substitutions that undo
    the line wrapping of a details cell, and the strip. */
module Cleaning {
  import opened Wrappers
  import opened Text


  /** The punctuation after which a line break is a natural break. */
  predicate IsStop(c: char) { c == ',' || c == '.' }

  /** The character before position `i` of `s` is `,` or `.`; `afterStop`
      says so for the character before `s` itself. */
  predicate StopBefore(s: string, i: nat, afterStop: bool)
    requires i < |s|
  {
    if i == 0 then afterStop else IsStop(s[i - 1])
  }

  /** First pass of `_clean_details`, `re.sub(r"(?<![,.])\n", " ", s)`: a line
      break not preceded by `,` or `.` becomes a space. `afterStop` says
      whether the character before `s` was `,` or `.`. */
  function SpaceBareBreaks(s: string, afterStop: bool): (r: string)
    ensures |r| == |s|
    ensures forall i :: 0 <= i < |s| ==>
      r[i] == if s[i] == '\n' && !StopBefore(s, i, afterStop) then ' ' else s[i]
  {
    if s == [] then []
    else
      var rest := SpaceBareBreaks(s[1..], IsStop(s[0]));
      assert forall i :: 1 <= i < |s| ==> s[1..][i - 1] == s[i];
      [if s[0] == '\n' && !afterStop then ' ' else s[0]] + rest
  }

  /** Second pass, `re.sub(r"([,.])\n", r"\1 ", s)`: a line break right after
      `,` or `.` becomes a space and the punctuation stays. */
  function SpaceStopBreaks(s: string): (r: string)
    ensures |r| == |s|
    ensures forall i :: 0 <= i < |s| ==>
      r[i] == if s[i] == '\n' && StopBefore(s, i, false) then ' ' else s[i]
  {
    if |s| >= 2 && IsStop(s[0]) && s[1] == '\n' then
      var rest := SpaceStopBreaks(s[2..]);
      assert forall i :: 2 <= i < |s| ==> s[2..][i - 2] == s[i];
      assert forall i :: 3 <= i < |s| ==> (StopBefore(s[2..], i - 2, false) <==> StopBefore(s, i, false)) by {
        forall i | 3 <= i < |s| ensures StopBefore(s[2..], i - 2, false) <==> StopBefore(s, i, false) {
          assert s[2..][i - 3] == s[i - 1];
        }
      }
      [s[0], ' '] + rest
    else if s == [] then []
    else
      var rest := SpaceStopBreaks(s[1..]);
      assert forall i :: 1 <= i < |s| ==> s[1..][i - 1] == s[i];
      assert forall i :: 2 <= i < |s| ==> (StopBefore(s[1..], i - 1, false) <==> StopBefore(s, i, false)) by {
        forall i | 2 <= i < |s| ensures StopBefore(s[1..], i - 1, false) <==> StopBefore(s, i, false) {
          assert s[1..][i - 2] == s[i - 1];
        }
      }
      [s[0]] + rest
  }

  /** Every line break turned into a space. */
  function NewlinesToSpaces(s: string): (r: string) {
    seq(|s|, i requires 0 <= i < |s| => if s[i] == '\n' then ' ' else s[i])
  }

  /** Together the first two passes turn every line break into a space:
      the break after `,` or `.` survives the first pass and the second
      replaces it. */
  lemma BreakPassesSpaceEveryBreak(s: string)
    ensures SpaceStopBreaks(SpaceBareBreaks(s, false)) == NewlinesToSpaces(s)
  {
    var t := SpaceBareBreaks(s, false);
    var r := SpaceStopBreaks(t);
    forall i | 0 <= i < |s| ensures r[i] == NewlinesToSpaces(s)[i] {
      if i > 0 {
        assert t[i - 1] == s[i - 1] || t[i - 1] == ' ';
        assert StopBefore(s, i, false) <==> StopBefore(t, i, false);
      }
    }
  }

  /** No two whitespace characters in a row. */
  predicate NoDoubleSpace(s: string) {
    forall i :: 0 <= i < |s| - 1 ==> !(IsSpace(s[i]) && IsSpace(s[i + 1]))
  }

  /** The text with its whitespace left out. */
  function NonSpace(s: string): string {
    if s == [] then [] else (if IsSpace(s[0]) then [] else [s[0]]) + NonSpace(s[1..])
  }

  lemma {:induction false} NonSpaceConcat(a: string, b: string)
    ensures NonSpace(a + b) == NonSpace(a) + NonSpace(b)
  {
    if a == [] {
      assert a + b == b;
    } else {
      assert (a + b)[1..] == a[1..] + b;
      NonSpaceConcat(a[1..], b);
    }
  }

  lemma {:induction false} NonSpaceOfSpaces(s: string)
    requires AllSpace(s)
    ensures NonSpace(s) == []
  {
    if s != [] { NonSpaceOfSpaces(s[1..]); }
  }

  /** Third pass, `re.sub(r"\s{2,}", " ", s)`: each run of two or more
      whitespace characters becomes one space; a lone whitespace character
      stays as it is. */
  function CollapseSpaces(s: string): (r: string)
    ensures |r| <= |s|
    decreases |s|
  {
    if s == [] then []
    else
      var n := Run(s, IsSpace);
      if n >= 2 then " " + CollapseSpaces(s[n..])
      else [s[0]] + CollapseSpaces(s[1..])
  }

  /** The third pass leaves no two whitespace characters in a row, and
      starts with whitespace exactly when its input does. */
  lemma {:induction false} CollapseSpacesNoDouble(s: string)
    ensures NoDoubleSpace(CollapseSpaces(s))
    ensures CollapseSpaces(s) == [] <==> s == []
    ensures s != [] ==> (IsSpace(CollapseSpaces(s)[0]) <==> IsSpace(s[0]))
    decreases |s|
  {
    if s != [] {
      var n := Run(s, IsSpace);
      if n >= 2 {
        CollapseSpacesNoDouble(s[n..]);
        assert n < |s| ==> !IsSpace(s[n..][0]);
      } else {
        CollapseSpacesNoDouble(s[1..]);
        assert |s| > 1 && IsSpace(s[0]) ==> !IsSpace(s[1..][0]);
      }
    }
  }

  /** The third pass keeps every character that is not whitespace, in order. */
  lemma {:induction false} CollapseSpacesNonSpace(s: string)
    ensures NonSpace(CollapseSpaces(s)) == NonSpace(s)
    decreases |s|
  {
    if s != [] {
      var n := Run(s, IsSpace);
      if n >= 2 {
        assert CollapseSpaces(s) == " " + CollapseSpaces(s[n..]);
        CollapseSpacesNonSpace(s[n..]);
        assert s == s[..n] + s[n..];
        NonSpaceConcat(s[..n], s[n..]);
        NonSpaceOfSpaces(s[..n]);
        NonSpaceConcat(" ", CollapseSpaces(s[n..]));
      } else {
        assert CollapseSpaces(s) == [s[0]] + CollapseSpaces(s[1..]);
        CollapseSpacesNonSpace(s[1..]);
        assert s == [s[0]] + s[1..];
        NonSpaceConcat([s[0]], s[1..]);
        NonSpaceConcat([s[0]], CollapseSpaces(s[1..]));
      }
    }
  }

  /** Every character of the third pass's output is a space or comes from
      its input. */
  lemma {:induction false} CollapseSpacesChars(s: string)
    ensures forall c :: c in CollapseSpaces(s) ==> c == ' ' || c in s
    decreases |s|
  {
    if s != [] {
      var n := Run(s, IsSpace);
      if n >= 2 {
        CollapseSpacesChars(s[n..]);
        assert forall c :: c in s[n..] ==> c in s;
      } else {
        CollapseSpacesChars(s[1..]);
        assert forall c :: c in s[1..] ==> c in s;
      }
    }
  }

  /** Text without two whitespace characters in a row passes unchanged. */
  lemma {:induction false} CollapseSpacesKeeps(s: string)
    requires NoDoubleSpace(s)
    ensures CollapseSpaces(s) == s
    decreases |s|
  {
    if s != [] {
      var n := Run(s, IsSpace);
      if |s| >= 2 {
        assert !(IsSpace(s[0]) && IsSpace(s[1]));
      }
      assert NoDoubleSpace(s[1..]) by {
        forall i | 0 <= i < |s| - 2 ensures !(IsSpace(s[1..][i]) && IsSpace(s[1..][i + 1])) {
          assert s[1..][i] == s[i + 1] && s[1..][i + 1] == s[i + 2];
        }
      }
      CollapseSpacesKeeps(s[1..]);
    }
  }

  /** A slice of text without double whitespace has none either. */
  lemma SliceNoDoubleSpace(s: string, a: nat, b: nat)
    requires a <= b <= |s| && NoDoubleSpace(s)
    ensures NoDoubleSpace(s[a..b])
  {
    forall i | 0 <= i < b - a - 1 ensures !(IsSpace(s[a..b][i]) && IsSpace(s[a..b][i + 1])) {
      assert s[a..b][i] == s[a + i] && s[a..b][i + 1] == s[a + i + 1];
    }
  }

  /** Stripping adds no character. */
  lemma StripChars(s: string)
    ensures forall c :: c in Strip(s) ==> c in s
  {
    var a := StripSlice(s);
    var r := Strip(s);
    forall c | c in r ensures c in s {
      var i :| 0 <= i < |r| && r[i] == c;
      assert s[a + i] == c;
    }
  }

  /** Stripping adds no double whitespace. */
  lemma StripNoDoubleSpace(s: string)
    requires NoDoubleSpace(s)
    ensures NoDoubleSpace(Strip(s))
  {
    var a := StripSlice(s);
    SliceNoDoubleSpace(s, a, a + |Strip(s)|);
  }

  /** The three passes and the strip of `_clean_details`. */
  function CleanText(s: string): string {
    Strip(CollapseSpaces(SpaceStopBreaks(SpaceBareBreaks(s, false))))
  }

  /** The cleaned text has no line break, no two whitespace characters in a
      row and no whitespace at either end. */
  lemma CleanTextShape(s: string)
    ensures '\n' !in CleanText(s) && NoDoubleSpace(CleanText(s)) && Trimmed(CleanText(s))
  {
    var broken := SpaceStopBreaks(SpaceBareBreaks(s, false));
    BreakPassesSpaceEveryBreak(s);
    assert '\n' !in broken;
    var collapsed := CollapseSpaces(broken);
    CollapseSpacesNoDouble(broken);
    CollapseSpacesChars(broken);
    StripChars(collapsed);
    StripNoDoubleSpace(collapsed);
  }

  /** `_clean_details`: None and "" give ""; otherwise the three passes and
      a strip. The result has no line break, no two whitespace characters in
      a row and no whitespace at either end. */
  function CleanDetails(details: Option<string>): (r: string)
    ensures '\n' !in r
    ensures NoDoubleSpace(r)
    ensures Trimmed(r)
    ensures details.None? || details.value == "" ==> r == ""
  {
    if details.None? || details.value == "" then ""
    else
      CleanTextShape(details.value);
      CleanText(details.value)
  }

  /** Text without a line break passes the first two passes unchanged. */
  lemma BreakPassesKeep(s: string)
    requires '\n' !in s
    ensures SpaceStopBreaks(SpaceBareBreaks(s, false)) == s
  {
    BreakPassesSpaceEveryBreak(s);
    assert NewlinesToSpaces(s) == s;
  }

  /** Cleaning is idempotent: cleaned text is left as it is. */
  lemma CleanDetailsIdempotent(details: Option<string>)
    ensures CleanDetails(Some(CleanDetails(details))) == CleanDetails(details)
  {
    CleanDetailsKeepsClean(CleanDetails(details));
  }

  /** When the first two passes leave text without double or outer
      whitespace, that text is the cleaned text. */
  lemma CleanTextAfterBreaks(s: string, t: string)
    requires SpaceStopBreaks(SpaceBareBreaks(s, false)) == t
    requires NoDoubleSpace(t) && Trimmed(t)
    ensures CleanText(s) == t
  {
    CollapseSpacesKeeps(t);
    StripTrimmed(t);
  }

  /** Text whose line breaks stand alone between other characters is only
      unwrapped: each break becomes a space and nothing else changes. */
  lemma CleanDetailsUnwraps(s: string)
    requires s != "" && NoDoubleSpace(NewlinesToSpaces(s)) && Trimmed(NewlinesToSpaces(s))
    ensures CleanDetails(Some(s)) == NewlinesToSpaces(s)
  {
    BreakPassesSpaceEveryBreak(s);
    CleanTextAfterBreaks(s, NewlinesToSpaces(s));
  }

  /** Text that is already clean passes unchanged. */
  lemma CleanDetailsKeepsClean(s: string)
    requires '\n' !in s && NoDoubleSpace(s) && Trimmed(s)
    ensures CleanDetails(Some(s)) == s
  {
    if s != "" {
      BreakPassesKeep(s);
      CleanTextAfterBreaks(s, s);
    }
  }

  /** Non-empty text without whitespace. */
  predicate Word(w: string) {
    w != [] && forall i :: 0 <= i < |w| ==> !IsSpace(w[i])
  }

  /** Non-empty text that cleaning leaves as it is. */
  predicate Clean(s: string) {
    s != [] && '\n' !in s && NoDoubleSpace(s) && Trimmed(s)
  }

  lemma WordClean(w: string)
    requires Word(w)
    ensures Clean(w)
  {
    assert forall i :: 0 <= i < |w| ==> w[i] != '\n';
  }

  /** Two clean texts joined by a space are clean. */
  lemma CleanJoin(a: string, b: string)
    requires Clean(a) && Clean(b)
    ensures Clean(a + " " + b)
  {
    var t := a + " " + b;
    assert forall i :: 0 <= i < |a| ==> t[i] == a[i];
    assert forall i :: 0 <= i < |b| ==> t[|a| + 1 + i] == b[i];
    forall i | 0 <= i < |t| ensures t[i] != '\n' {
      if i < |a| { assert a[i] != '\n'; } else if i > |a| { assert b[i - |a| - 1] != '\n'; }
    }
    forall i | 0 <= i < |t| - 1 ensures !(IsSpace(t[i]) && IsSpace(t[i + 1])) {
      if i < |a| - 1 { assert !(IsSpace(a[i]) && IsSpace(a[i + 1])); }
      else if i == |a| - 1 { assert !IsSpace(a[|a| - 1]); }
      else if i == |a| { assert !IsSpace(b[0]); }
      else { assert !(IsSpace(b[i - |a| - 1]) && IsSpace(b[i - |a|])); }
    }
  }

  /** Replacing the line breaks of two texts without one, joined by a line
      break, gives the texts joined by a space. */
  lemma NewlinesBetween(a: string, b: string)
    requires '\n' !in a && '\n' !in b
    ensures NewlinesToSpaces(a + "\n" + b) == a + " " + b
  {
    var s := a + "\n" + b;
    var t := a + " " + b;
    forall i | 0 <= i < |s| ensures NewlinesToSpaces(s)[i] == t[i] {
      if i < |a| { assert s[i] == a[i] && t[i] == a[i]; }
      else if i > |a| { assert s[i] == b[i - |a| - 1] && t[i] == b[i - |a| - 1]; }
    }
  }

  /** Two clean texts joined by a line break clean to the texts joined by a
      space. */
  lemma CleanDetailsBreakBetween(a: string, b: string)
    requires Clean(a) && Clean(b)
    ensures CleanDetails(Some(a + "\n" + b)) == a + " " + b
  {
    NewlinesBetween(a, b);
    CleanJoin(a, b);
    CleanDetailsUnwraps(a + "\n" + b);
  }

  /** A line break inside a word becomes a space. */
  lemma CleanDetailsMidWordBreak()
    ensures CleanDetails(Some("Halyk Bank of Ka\nzakhstan")) == "Halyk Bank of Ka zakhstan"
  {
    assert "Halyk" + " " + "Bank" == "Halyk Bank";
    assert "Halyk Bank" + " " + "of" == "Halyk Bank of";
    assert "Halyk Bank of" + " " + "Ka" == "Halyk Bank of Ka";
    assert "Halyk Bank of Ka" + "\n" + "zakhstan" == "Halyk Bank of Ka\nzakhstan";
    assert "Halyk Bank of Ka" + " " + "zakhstan" == "Halyk Bank of Ka zakhstan";
    WordClean("Halyk");
    WordClean("Bank");
    CleanJoin("Halyk", "Bank");
    WordClean("of");
    CleanJoin("Halyk Bank", "of");
    WordClean("Ka");
    CleanJoin("Halyk Bank of", "Ka");
    WordClean("zakhstan");
    CleanDetailsBreakBetween("Halyk Bank of Ka", "zakhstan");
  }

  /** A line break after a comma becomes a space after the comma. */
  lemma CleanDetailsBreakAfterComma()
    ensures CleanDetails(Some("MCC: 5814,\nAPPLE PAY")) == "MCC: 5814, APPLE PAY"
  {
    assert "MCC:" + " " + "5814," == "MCC: 5814,";
    assert "APPLE" + " " + "PAY" == "APPLE PAY";
    assert "MCC: 5814," + "\n" + "APPLE PAY" == "MCC: 5814,\nAPPLE PAY";
    assert "MCC: 5814," + " " + "APPLE PAY" == "MCC: 5814, APPLE PAY";
    WordClean("MCC:");
    WordClean("5814,");
    CleanJoin("MCC:", "5814,");
    WordClean("APPLE");
    WordClean("PAY");
    CleanJoin("APPLE", "PAY");
    CleanDetailsBreakBetween("MCC: 5814,", "APPLE PAY");
  }

  /** A receiver line is already clean: cleaning leaves it unchanged. */
  lemma CleanDetailsReceiverUnchanged(account: string)
    requires account != [] && forall i :: 0 <= i < |account| ==> IsDigit(account[i]) || account[i] == '*'
    ensures CleanDetails(Some("Receiver: " + account)) == "Receiver: " + account
  {
    var s := "Receiver: " + account;
    assert forall i :: 10 <= i < |s| ==> s[i] == account[i - 10];
    assert NoDoubleSpace(s) by {
      forall i | 0 <= i < |s| - 1 ensures !(IsSpace(s[i]) && IsSpace(s[i + 1])) {
        if i >= 9 { assert !IsSpace(s[i + 1]); }
      }
    }
    assert '\n' !in s by {
      forall i | 0 <= i < |s| ensures s[i] != '\n' {
        if i >= 10 { assert IsDigit(account[i - 10]) || account[i - 10] == '*'; }
      }
    }
    assert !IsSpace(s[|s| - 1]) by { assert s[|s| - 1] == account[|account| - 1]; }
    CleanDetailsKeepsClean(s);
  }

  /** Text without whitespace is copied in front of the collapsed rest. */
  lemma {:induction false} CollapseSpacesWord(w: string, rest: string)
    requires forall i :: 0 <= i < |w| ==> !IsSpace(w[i])
    ensures CollapseSpaces(w + rest) == w + CollapseSpaces(rest)
  {
    if w == [] {
      assert w + rest == rest;
    } else {
      assert (w + rest)[0] == w[0];
      assert Run(w + rest, IsSpace) == 0;
      assert (w + rest)[1..] == w[1..] + rest;
      CollapseSpacesWord(w[1..], rest);
    }
  }

  /** Two or more whitespace characters before a word become one space. */
  lemma CollapseSpacesGap(gap: string, rest: string)
    requires |gap| >= 2 && AllSpace(gap) && rest != [] && !IsSpace(rest[0])
    ensures CollapseSpaces(gap + rest) == " " + CollapseSpaces(rest)
  {
    RunUnique(gap + rest, IsSpace, |gap|);
    assert (gap + rest)[|gap|..] == rest;
  }

  /** Three words separated by runs of two or more whitespace characters
      collapse to the words separated by single spaces. */
  lemma CollapseSpacesGaps(a: string, g1: string, b: string, g2: string, c: string)
    requires a != [] && b != [] && c != []
    requires forall i :: 0 <= i < |a| ==> !IsSpace(a[i])
    requires forall i :: 0 <= i < |b| ==> !IsSpace(b[i])
    requires forall i :: 0 <= i < |c| ==> !IsSpace(c[i])
    requires |g1| >= 2 && |g2| >= 2 && AllSpace(g1) && AllSpace(g2)
    ensures CollapseSpaces(a + (g1 + (b + (g2 + c)))) == a + (" " + (b + (" " + c)))
  {
    var r2 := g2 + c;
    var r1 := b + r2;
    CollapseSpacesWord(c, "");
    assert c + "" == c;
    CollapseSpacesGap(g2, c);
    assert CollapseSpaces(r2) == " " + c;
    CollapseSpacesWord(b, r2);
    assert CollapseSpaces(r1) == b + (" " + c);
    CollapseSpacesGap(g1, r1);
    CollapseSpacesWord(a, g1 + r1);
  }

  /** Three words separated by runs of two or more whitespace characters
      other than line breaks clean to the words separated by single spaces. */
  lemma CleanDetailsGaps(a: string, g1: string, b: string, g2: string, c: string)
    requires a != [] && b != [] && c != []
    requires forall i :: 0 <= i < |a| ==> !IsSpace(a[i])
    requires forall i :: 0 <= i < |b| ==> !IsSpace(b[i])
    requires forall i :: 0 <= i < |c| ==> !IsSpace(c[i])
    requires |g1| >= 2 && |g2| >= 2 && AllSpace(g1) && AllSpace(g2)
    requires '\n' !in g1 && '\n' !in g2
    ensures CleanDetails(Some(a + (g1 + (b + (g2 + c))))) == a + (" " + (b + (" " + c)))
  {
    var s := a + (g1 + (b + (g2 + c)));
    forall i | 0 <= i < |s| ensures s[i] != '\n' {
      if i < |a| { assert s[i] == a[i]; }
      else if i < |a + g1| { assert s[i] == g1[i - |a|]; }
      else if i < |a + g1 + b| { assert s[i] == b[i - |a + g1|]; }
      else if i < |a + g1 + b + g2| { assert s[i] == g2[i - |a + g1 + b|]; }
      else { assert s[i] == c[i - |a + g1 + b + g2|]; }
    }
    BreakPassesKeep(s);
    CollapseSpacesGaps(a, g1, b, g2, c);
    var t := a + (" " + (b + (" " + c)));
    assert t[0] == a[0] && t[|t| - 1] == c[|c| - 1];
    StripTrimmed(t);
  }

  /** Runs of spaces between words become single spaces. */
  lemma CleanDetailsCollapsesSpaces()
    ensures CleanDetails(Some("too  many   spaces")) == "too many spaces"
  {
    assert "too" + ("  " + ("many" + ("   " + "spaces"))) == "too  many   spaces";
    assert "too" + (" " + ("many" + (" " + "spaces"))) == "too many spaces";
    CleanDetailsGaps("too", "  ", "many", "   ", "spaces");
  }
}
