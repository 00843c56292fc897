/** `_quote_identifier` of the current Oracle adapter: the gate every table
    and column name passes before it is put into SQL text. A name is one or
    two dot-separated parts; each part starts with a letter and continues
    with letters, digits, `_`, `#` or `$`. An accepted name comes back with
    every part upper-cased and wrapped in double quotes. */
module OracleIdentifier {
  import opened Wrappers
  import opened Driver
  import opened Text

  predicate IsLetter(ch: char)
  {
    'A' <= ch <= 'Z' || 'a' <= ch <= 'z'
  }

  /** `[A-Za-z0-9_#$]` */
  predicate IsPartChar(ch: char)
  {
    IsLetter(ch) || IsDigit(ch) || ch == '_' || ch == '#' || ch == '$'
  }

  /** `[A-Za-z][A-Za-z0-9_#$]*` */
  predicate ValidPart(s: string)
  {
    |s| >= 1 && IsLetter(s[0]) && forall i :: 1 <= i < |s| ==> IsPartChar(s[i])
  }

  /** The whole string is `part` or `part.part`. */
  predicate ValidIdentifier(s: string)
  {
    ValidPart(s) ||
    exists i :: 0 < i < |s| && s[i] == '.' && ValidPart(s[..i]) && ValidPart(s[i + 1..])
  }

  /** What `VALID_IDENTIFIER_PATTERN.match` accepts. In Python's `re`, `$`
      also matches just before a newline that ends the string, so the
      pattern accepts a valid name followed by one `\n`. */
  predicate PatternAccepts(s: string)
  {
    ValidIdentifier(s) || (|s| > 0 && s[|s| - 1] == '\n' && ValidIdentifier(s[..|s| - 1]))
  }

  /** One part, upper-cased and double-quoted. */
  function QuotePart(part: string): string
  {
    "\"" + Upper(part) + "\""
  }

  function QuoteAll(parts: seq<string>): seq<string>
  {
    seq(|parts|, k requires 0 <= k < |parts| => QuotePart(parts[k]))
  }

  /** The transformation applied after validation: split on '.', quote each
      part, join with '.'. */
  function QuoteParts(s: string): string
  {
    Join(QuoteAll(Split(s, '.')), ".")
  }

  /** The characters a quoted name can contain. */
  predicate QuotedChar(ch: char)
  {
    'A' <= ch <= 'Z' || IsDigit(ch) || ch == '_' || ch == '#' || ch == '$' || ch == '"' || ch == '.'
  }

  predicate SafeQuoted(q: string)
  {
    forall i :: 0 <= i < |q| ==> QuotedChar(q[i])
  }

  /** `_quote_identifier` with the grammar the pattern is meant to state:
      nothing that fails the grammar reaches the SQL text, and what passes
      is made only of upper-case letters, digits, `_#$`, quotes and dots. */
  function QuoteIdentifier(s: string): (r: Result<string, Exn>)
    ensures r.Err? <==> !ValidIdentifier(s)
    ensures r.Err? ==> r.error.ValueError?
    ensures r.Ok? ==> SafeQuoted(r.value)
  {
    if |s| == 0 then Err(ValueError("Identifier cannot be empty"))
    else if !ValidIdentifier(s) then Err(ValueError("Invalid Oracle identifier: " + s))
    else
      QuotePartsSafe(s);
      Ok(QuoteParts(s))
  }

  /** `_quote_identifier` as written, gated by the regular expression with
      its trailing-newline allowance. */
  function QuoteIdentifierAsWritten(s: string): (r: Result<string, Exn>)
    ensures r.Err? <==> !PatternAccepts(s)
  {
    if |s| == 0 then Err(ValueError("Identifier cannot be empty"))
    else if !PatternAccepts(s) then Err(ValueError("Invalid Oracle identifier: " + s))
    else Ok(QuoteParts(s))
  }

  /** A part has no dot. */
  lemma ValidPartFree(s: string)
    requires ValidPart(s)
    ensures Free(s, '.')
  {
  }

  lemma SplitOne(a: string)
    requires Free(a, '.')
    ensures Split(a, '.') == [a]
  {
    SplitFree(a, "", '.');
    assert a + "" == a;
  }

  lemma SplitTwo(a: string, b: string)
    requires Free(a, '.') && Free(b, '.')
    ensures Split(a + "." + b, '.') == [a, b]
  {
    assert a + "." + b == a + (['.'] + b);
    SplitFree(a, ['.'] + b, '.');
    assert (['.'] + b)[1..] == b;
    SplitOne(b);
    assert a + "" == a;
  }

  lemma SplitAtDot(s: string, i: nat)
    requires 0 < i < |s| && s[i] == '.' && ValidPart(s[..i]) && ValidPart(s[i + 1..])
    ensures Split(s, '.') == [s[..i], s[i + 1..]]
  {
    var a, b := s[..i], s[i + 1..];
    ValidPartFree(a);
    ValidPartFree(b);
    assert s == a + "." + b;
    SplitTwo(a, b);
  }

  /** A valid name splits into its one or two valid parts. */
  lemma ValidIdentifierParts(s: string)
    requires ValidIdentifier(s)
    ensures var parts := Split(s, '.');
            (|parts| == 1 || |parts| == 2) &&
            forall k :: 0 <= k < |parts| ==> ValidPart(parts[k])
  {
    if ValidPart(s) {
      ValidPartFree(s);
      SplitOne(s);
    } else {
      var i :| 0 < i < |s| && s[i] == '.' && ValidPart(s[..i]) && ValidPart(s[i + 1..]);
      SplitAtDot(s, i);
    }
  }

  lemma {:induction false} JoinSafe(parts: seq<string>)
    requires forall k :: 0 <= k < |parts| ==> SafeQuoted(parts[k])
    ensures SafeQuoted(Join(parts, "."))
  {
    if |parts| > 1 {
      JoinSafe(parts[1..]);
    }
  }

  lemma QuotePartsSafe(s: string)
    requires ValidIdentifier(s)
    ensures SafeQuoted(QuoteParts(s))
  {
    ValidIdentifierParts(s);
    var parts := Split(s, '.');
    forall k | 0 <= k < |parts|
      ensures SafeQuoted(QuoteAll(parts)[k])
    {
      assert ValidPart(parts[k]);
    }
    JoinSafe(QuoteAll(parts));
  }

  /** The inverse of quoting: split on '.', strip the quotes of each
      piece, join with '.'. */
  function Unquote(q: string): string
  {
    var pieces := Split(q, '.');
    Join(seq(|pieces|, k requires 0 <= k < |pieces| => Strip(pieces[k])), ".")
  }

  function Strip(piece: string): string
  {
    if |piece| >= 2 then piece[1..|piece| - 1] else piece
  }

  lemma {:induction false} UpperJoin(parts: seq<string>)
    ensures Upper(Join(parts, ".")) == Join(seq(|parts|, k requires 0 <= k < |parts| => Upper(parts[k])), ".")
  {
    var up := seq(|parts|, k requires 0 <= k < |parts| => Upper(parts[k]));
    if |parts| > 1 {
      UpperJoin(parts[1..]);
      assert up[1..] == seq(|parts| - 1, k requires 0 <= k < |parts| - 1 => Upper(parts[1..][k]));
      assert Upper(parts[0] + "." + Join(parts[1..], ".")) == Upper(parts[0]) + "." + Upper(Join(parts[1..], "."));
    }
  }

  /** Unquoting an accepted name gives back the name, upper-cased: quoting
      loses nothing but case. */
  lemma {:induction false} QuoteIdentifierRoundTrip(s: string)
    requires QuoteIdentifier(s).Ok?
    ensures Unquote(QuoteIdentifier(s).value) == Upper(s)
  {
    var parts := Split(s, '.');
    ValidIdentifierParts(s);
    var quoted := QuoteAll(parts);
    forall k | 0 <= k < |quoted|
      ensures Free(quoted[k], '.')
    {
      assert ValidPart(parts[k]);
    }
    SplitJoin(quoted, '.');
    var pieces := Split(QuoteParts(s), '.');
    assert pieces == quoted;
    var stripped := seq(|pieces|, k requires 0 <= k < |pieces| => Strip(pieces[k]));
    assert stripped == seq(|parts|, k requires 0 <= k < |parts| => Upper(parts[k])) by {
      forall k | 0 <= k < |parts|
        ensures stripped[k] == Upper(parts[k])
      {
        assert pieces[k] == "\"" + Upper(parts[k]) + "\"";
      }
    }
    UpperJoin(parts);
    JoinSplit(s, '.');
  }

  lemma UpperAt(s: string, i: nat, j: nat)
    requires i <= j <= |s|
    ensures Upper(s)[i..j] == Upper(s[i..j])
  {
  }

  lemma UpperCharClasses(ch: char)
    ensures IsLetter(UpperChar(ch)) <==> IsLetter(ch)
    ensures IsPartChar(UpperChar(ch)) <==> IsPartChar(ch)
    ensures UpperChar(ch) == '.' <==> ch == '.'
  {
  }

  lemma ValidPartUpper(s: string)
    ensures ValidPart(Upper(s)) <==> ValidPart(s)
  {
    forall i | 0 <= i < |s|
      ensures IsLetter(Upper(s)[i]) <==> IsLetter(s[i])
      ensures IsPartChar(Upper(s)[i]) <==> IsPartChar(s[i])
    {
      UpperCharClasses(s[i]);
    }
  }

  lemma TwoPartsUpper(s: string, i: nat)
    requires 0 < i < |s|
    ensures var u := Upper(s);
            (s[i] == '.' && ValidPart(s[..i]) && ValidPart(s[i + 1..])) <==>
            (u[i] == '.' && ValidPart(u[..i]) && ValidPart(u[i + 1..]))
  {
    UpperAt(s, 0, i);
    UpperAt(s, i + 1, |s|);
    assert Upper(s)[..i] == Upper(s)[0..i] && s[..i] == s[0..i];
    assert Upper(s)[i + 1..] == Upper(s)[i + 1..|s|] && s[i + 1..] == s[i + 1..|s|];
    ValidPartUpper(s[..i]);
    ValidPartUpper(s[i + 1..]);
    UpperCharClasses(s[i]);
  }

  /** The grammar ignores case. */
  lemma ValidIdentifierUpper(s: string)
    ensures ValidIdentifier(Upper(s)) <==> ValidIdentifier(s)
  {
    ValidPartUpper(s);
    forall i | 0 < i < |s|
      ensures var u := Upper(s);
              (s[i] == '.' && ValidPart(s[..i]) && ValidPart(s[i + 1..])) <==>
              (u[i] == '.' && ValidPart(u[..i]) && ValidPart(u[i + 1..]))
    {
      TwoPartsUpper(s, i);
    }
  }

  /** Quoting upper-cases: a name and its upper-case form quote to the same
      text, and are accepted together. */
  lemma {:induction false} QuoteIdentifierCaseInsensitive(s: string)
    ensures QuoteIdentifier(Upper(s)) .Err? <==> QuoteIdentifier(s).Err?
    ensures QuoteIdentifier(s).Ok? ==> QuoteIdentifier(Upper(s)) == QuoteIdentifier(s)
  {
    ValidIdentifierUpper(s);
    if ValidIdentifier(s) {
      var parts := Split(s, '.');
      UpperSplit(s);
      var uparts := Split(Upper(s), '.');
      assert QuoteAll(uparts) == QuoteAll(parts) by {
        forall k | 0 <= k < |parts|
          ensures QuotePart(uparts[k]) == QuotePart(parts[k])
        {
          UpperIdempotent(parts[k]);
        }
      }
    }
  }

  lemma SplitCons(t: string)
    requires |t| > 0 && t[0] != '.'
    ensures Split(t, '.') == [[t[0]] + Split(t[1..], '.')[0]] + Split(t[1..], '.')[1..]
  {
  }

  lemma UpperCons(ch: char, t: string)
    ensures Upper([ch] + t) == [UpperChar(ch)] + Upper(t)
  {
  }

  /** One step of `UpperSplit`: a leading non-separator joins the first
      piece on both sides. */
  lemma UpperSplitDot(s: string, rest: seq<string>, uprest: seq<string>)
    requires |s| > 0 && s[0] == '.'
    requires rest == Split(s[1..], '.') && |uprest| == |rest|
    requires Split(Upper(s)[1..], '.') == uprest
    requires forall k :: 0 <= k < |rest| ==> uprest[k] == Upper(rest[k])
    ensures var parts := Split(s, '.');
            Split(Upper(s), '.') == seq(|parts|, k requires 0 <= k < |parts| => Upper(parts[k]))
  {
    var u := Upper(s);
    assert u[0] == '.';
    var parts := Split(s, '.');
    assert parts == [""] + rest;
    var us := Split(u, '.');
    assert us == [""] + uprest;
    assert Upper("") == "";
    var up := seq(|parts|, k requires 0 <= k < |parts| => Upper(parts[k]));
    assert |up| == |us|;
    forall k | 0 <= k < |up|
      ensures up[k] == us[k]
    {
      if k > 0 {
        assert parts[k] == rest[k - 1];
        assert us[k] == uprest[k - 1];
      }
    }
  }

  lemma UpperSplitLetter(s: string, rest: seq<string>, uprest: seq<string>)
    requires |s| > 0 && s[0] != '.'
    requires rest == Split(s[1..], '.') && |uprest| == |rest|
    requires Split(Upper(s)[1..], '.') == uprest
    requires forall k :: 0 <= k < |rest| ==> uprest[k] == Upper(rest[k])
    ensures var parts := Split(s, '.');
            Split(Upper(s), '.') == seq(|parts|, k requires 0 <= k < |parts| => Upper(parts[k]))
  {
    var u := Upper(s);
    assert u[0] == UpperChar(s[0]) && u[0] != '.';
    SplitCons(s);
    SplitCons(u);
    var parts := Split(s, '.');
    var head := [s[0]] + rest[0];
    assert parts == [head] + rest[1..];
    var us := Split(u, '.');
    assert us == [[u[0]] + uprest[0]] + uprest[1..];
    UpperCons(s[0], rest[0]);
    var up := seq(|parts|, k requires 0 <= k < |parts| => Upper(parts[k]));
    assert |up| == |us|;
    forall k | 0 <= k < |up|
      ensures up[k] == us[k]
    {
      if k > 0 {
        assert parts[k] == rest[k];
        assert us[k] == uprest[k];
      }
    }
  }

  /** Splitting commutes with upper-casing, the separator being no letter. */
  lemma {:induction false} UpperSplit(s: string)
    ensures var parts := Split(s, '.');
            Split(Upper(s), '.') == seq(|parts|, k requires 0 <= k < |parts| => Upper(parts[k]))
  {
    var parts := Split(s, '.');
    var up := seq(|parts|, k requires 0 <= k < |parts| => Upper(parts[k]));
    if |s| > 0 {
      UpperSplit(s[1..]);
      var u := Upper(s);
      assert u[1..] == Upper(s[1..]);
      var rest := Split(s[1..], '.');
      var uprest := seq(|rest|, k requires 0 <= k < |rest| => Upper(rest[k]));
      if s[0] == '.' {
        UpperSplitDot(s, rest, uprest);
      } else {
        UpperSplitLetter(s, rest, uprest);
      }
    }
  }

  /** A one-part name is quoted whole. */
  lemma QuoteIdentifierOnePart(a: string)
    requires ValidPart(a)
    ensures QuoteIdentifier(a) == Ok("\"" + Upper(a) + "\"")
  {
    SplitOne(a);
    var q := QuoteAll([a]);
    assert |q| == 1 && q[0] == QuotePart(a);
    assert Join(q, ".") == QuotePart(a);
  }

  /** A two-part name is quoted part by part, the dot kept between. */
  lemma QuoteIdentifierTwoParts(a: string, b: string)
    requires ValidPart(a) && ValidPart(b)
    ensures QuoteIdentifier(a + "." + b) == Ok("\"" + Upper(a) + "\"" + "." + "\"" + Upper(b) + "\"")
  {
    var s := a + "." + b;
    var i := |a|;
    assert s[i] == '.' && s[..i] == a && s[i + 1..] == b;
    assert ValidIdentifier(s);
    SplitTwo(a, b);
    var q := QuoteAll([a, b]);
    assert q[0] == QuotePart(a) && q[1] == QuotePart(b);
    assert q[1..] == [QuotePart(b)];
    assert Join(q[1..], ".") == QuotePart(b);
    assert Join(q, ".") == QuotePart(a) + "." + QuotePart(b);
    assert QuoteParts(s) == Join(q, ".");
    assert QuoteIdentifier(s) == Ok(QuoteParts(s));
    var ua, ub := Upper(a), Upper(b);
    assert QuotePart(a) + "." + QuotePart(b) == "\"" + ua + "\"" + "." + "\"" + ub + "\"" by {
      assert QuotePart(a) == "\"" + ua + "\"";
      assert QuotePart(b) == "\"" + ub + "\"";
      assert ("\"" + ua + "\"") + "." + ("\"" + ub + "\"") == "\"" + ua + "\"" + "." + "\"" + ub + "\"";
    }
  }

  /** A character outside the grammar and other than the dot anywhere after
      the first position makes a name invalid. */
  lemma BadCharRefused(s: string, j: nat)
    requires 0 < j < |s| && !IsPartChar(s[j]) && s[j] != '.'
    ensures !ValidIdentifier(s)
  {
  }

  /** `stage.items` becomes `"STAGE"."ITEMS"`. */
  lemma QuoteIdentifierExample()
    ensures var a, b := "stage", "items"; QuoteIdentifier(a + "." + b) == Ok("\"STAGE\".\"ITEMS\"")
  {
    StageItemsValid();
    QuoteIdentifierTwoParts("stage", "items");
    UpperStageItems();
    StageItemsText();
  }

  lemma StageItemsValid()
    ensures ValidPart("stage") && ValidPart("items")
  {
    var a, b := "stage", "items";
    forall i | 1 <= i < |a| ensures IsPartChar(a[i]) { }
    forall i | 1 <= i < |b| ensures IsPartChar(b[i]) { }
  }

  lemma StageItemsText()
    ensures "\"" + "STAGE" + "\"" + "." + "\"" + "ITEMS" + "\"" == "\"STAGE\".\"ITEMS\""
  {
  }

  lemma UpperStageItems()
    ensures Upper("stage") == "STAGE" && Upper("items") == "ITEMS"
  {
  }

  /** A name of three parts is refused. */
  lemma ThreePartsRefused()
    ensures QuoteIdentifier("a.b.c").Err?
  {
  }

  /** A name carrying SQL after it is refused. */
  lemma InjectionRefused()
    ensures QuoteIdentifier("t; DROP TABLE t").Err?
  {
    BadCharRefused("t; DROP TABLE t", 1);
  }

  /** What the pattern accepts beyond the grammar is exactly a valid name
      with one trailing newline. */
  lemma PatternAcceptsBeyondGrammar(s: string)
    requires PatternAccepts(s) && !ValidIdentifier(s)
    ensures |s| >= 2 && s[|s| - 1] == '\n' && ValidIdentifier(s[..|s| - 1])
  {
  }

  /** The name `T` followed by a newline passes the pattern as written and is
      turned into a quoted identifier that holds a newline, while the
      grammar rejects it. */
  lemma TrailingNewlineAccepted()
    ensures QuoteIdentifierAsWritten("T\n") == Ok("\"T\n\"")
    ensures !SafeQuoted("\"T\n\"")
    ensures QuoteIdentifier("T\n").Err?
  {
    var s := "T\n";
    assert s[..1] == "T" && ValidPart("T");
    assert PatternAccepts(s);
    assert !QuotedChar(("\"T\n\"")[2]);
    SplitOne(s);
    assert Upper(s) == s;
    assert QuoteAll([s])[0] == QuotePart(s) == "\"T\n\"";
    assert !ValidPart(s);
  }
}
