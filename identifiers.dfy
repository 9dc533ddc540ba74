/**
 * Identifier generation of the JavaScript generator (goagen/jsgen):
 * Jsify turns any string into a camel-case JavaScript identifier by editing
 * its runes in place.
 */
module Identifiers {
  import opened Text
  import opened Design

  /** commonInitialisms: words written all upper case in identifiers. */
  const CommonInitialisms: set<string> := {
    "API", "ASCII", "CPU", "CSS", "DNS", "EOF", "GUID", "HTML", "HTTP", "HTTPS",
    "ID", "IP", "JMES", "JSON", "JWT", "LHS", "OK", "QPS", "RAM", "RHS",
    "RPC", "SLA", "SMTP", "SQL", "SSH", "TCP", "TLS", "TTL", "UDP", "UI",
    "UID", "UUID", "URI", "URL", "UTF8", "VM", "XML", "XSRF", "XSS"
  }

  /** `u` is `word` written in upper case, rune by rune. */
  predicate UpperIs(word: seq<char>, u: string) {
    |word| == |u| && forall i :: 0 <= i < |u| ==> ToUpperChar(word[i]) == u[i]
  }

  /** commonInitialisms[strings.ToUpper(word)]. */
  predicate IsInitialism(word: seq<char>) {
    exists u :: u in CommonInitialisms && UpperIs(word, u)
  }

  lemma InitialismUpper(word: seq<char>)
    ensures IsInitialism(word) <==> Upper(word) in CommonInitialisms
  {
    if Upper(word) in CommonInitialisms {
      assert UpperIs(word, Upper(word));
    }
    if IsInitialism(word) {
      var u :| u in CommonInitialisms && UpperIs(word, u);
      assert Upper(word) == u;
    }
  }

  /** Go numeric type names that Jsify renders as "number". */
  const NumericAliases: set<string> := {
    "int64", "int32", "uint", "uint32", "int16", "uint16", "float32", "float64"
  }

  /** validIdentifier: a letter or a digit. */
  predicate ValidIdentifier(c: char) {
    IsLetter(c) || IsDigit(c)
  }

  predicate AllValid(s: seq<char>) {
    forall k :: 0 <= k < |s| ==> ValidIdentifier(s[k])
  }

  /** The letters and digits of `s`, in order. */
  function FilterValid(s: seq<char>): (r: seq<char>)
    ensures |r| <= |s|
    ensures AllValid(r)
  {
    if s == [] then []
    else if ValidIdentifier(s[0]) then [s[0]] + FilterValid(s[1..])
    else FilterValid(s[1..])
  }

  lemma {:induction false} FilterValidAppend(a: seq<char>, b: seq<char>)
    ensures FilterValid(a + b) == FilterValid(a) + FilterValid(b)
  {
    if a == [] {
      assert a + b == b;
    } else {
      assert (a + b)[0] == a[0];
      assert (a + b)[1..] == a[1..] + b;
      FilterValidAppend(a[1..], b);
      if ValidIdentifier(a[0]) {
        assert FilterValid(a + b) == [a[0]] + FilterValid(a[1..] + b);
      } else {
        assert FilterValid(a + b) == FilterValid(a[1..] + b);
      }
    }
  }

  // ---------------------------------------------------------------------
  // Specification of the rune edits
  // ---------------------------------------------------------------------

  /** `s` without its trailing run of invalid runes. */
  function TrimTrailing(s: seq<char>): (r: seq<char>)
    ensures r == [] || ValidIdentifier(r[|r| - 1])
  {
    if s == [] || ValidIdentifier(s[|s| - 1]) then s else TrimTrailing(s[..|s| - 1])
  }

  /** `s` without its leading run of invalid runes. */
  function DropInvalid(s: seq<char>): (r: seq<char>)
    ensures |r| <= |s|
  {
    if s != [] && !ValidIdentifier(s[0]) then DropInvalid(s[1..]) else s
  }

  /** `s` without its leading run of underscores. */
  function DropUnderscores(s: seq<char>): (r: seq<char>)
    ensures |r| <= |s|
  {
    if s != [] && s[0] == '_' then DropUnderscores(s[1..]) else s
  }

  /** Trimming keeps a prefix and removes only invalid runes. */
  lemma {:induction false} TrimTrailingIsPrefix(s: seq<char>)
    ensures |TrimTrailing(s)| <= |s| && TrimTrailing(s) == s[..|TrimTrailing(s)|]
    ensures forall k :: |TrimTrailing(s)| <= k < |s| ==> !ValidIdentifier(s[k])
    ensures FilterValid(TrimTrailing(s)) == FilterValid(s)
  {
    if s != [] && !ValidIdentifier(s[|s| - 1]) {
      var p := s[..|s| - 1];
      TrimTrailingIsPrefix(p);
      assert s == p + [s[|s| - 1]];
      FilterValidAppend(p, [s[|s| - 1]]);
    }
  }

  /** DropInvalid removes exactly the leading invalid run. */
  lemma {:induction false} DropInvalidAt(s: seq<char>, k: nat)
    requires k <= |s|
    requires forall j :: 0 <= j < k ==> !ValidIdentifier(s[j])
    requires k == |s| || ValidIdentifier(s[k])
    ensures DropInvalid(s) == s[k..]
    ensures FilterValid(s) == FilterValid(s[k..])
  {
    if k > 0 {
      DropInvalidAt(s[1..], k - 1);
      assert s[1..][k - 1..] == s[k..];
      assert !ValidIdentifier(s[0]);
      assert DropInvalid(s) == DropInvalid(s[1..]);
      assert FilterValid(s) == FilterValid(s[1..]);
    }
  }

  /** DropUnderscores removes exactly the leading underscore run. */
  lemma {:induction false} DropUnderscoresAt(s: seq<char>, k: nat)
    requires k <= |s|
    requires forall j :: 0 <= j < k ==> s[j] == '_'
    requires k == |s| || s[k] != '_'
    ensures DropUnderscores(s) == s[k..]
    ensures FilterValid(s) == FilterValid(s[k..])
  {
    if k > 0 {
      DropUnderscoresAt(s[1..], k - 1);
      assert s[1..][k - 1..] == s[k..];
      assert s[0] == '_' && !ValidIdentifier(s[0]);
      assert DropUnderscores(s) == DropUnderscores(s[1..]);
      assert FilterValid(s) == FilterValid(s[1..]);
    }
  }

  /** A run of invalid runes cannot reach past a valid last rune. */
  lemma DropInvalidNonEmpty(s: seq<char>)
    requires s != [] && ValidIdentifier(s[|s| - 1])
    ensures DropInvalid(s) != [] && ValidIdentifier(DropInvalid(s)[0])
    ensures DropInvalid(s)[|DropInvalid(s)| - 1] == s[|s| - 1]
    ensures FilterValid(DropInvalid(s)) == FilterValid(s)
  {
    var k := 0;
    while k < |s| && !ValidIdentifier(s[k])
      invariant 0 <= k <= |s|
      invariant forall j :: 0 <= j < k ==> !ValidIdentifier(s[j])
    {
      k := k + 1;
    }
    DropInvalidAt(s, k);
  }

  // ---------------------------------------------------------------------
  // Words and casing
  // ---------------------------------------------------------------------

  /** Every word has at least one rune. */
  predicate NonEmptyWords(ws: seq<seq<char>>) {
    forall k :: 0 <= k < |ws| ==> |ws[k]| > 0
  }

  /**
   * How Jsify cuts the trimmed runes into words. `rest` is the part still to
   * scan and `cur` the word under construction. A word ends at the last rune,
   * before a run of underscores, or where a lower-case rune is followed by one
   * that is not lower case; invalid runes are dropped where the scan meets them.
   */
  function Words(rest: seq<char>, cur: seq<char>): (ws: seq<seq<char>>)
    requires rest == [] || ValidIdentifier(rest[|rest| - 1])
    ensures NonEmptyWords(ws)
    decreases |rest|
  {
    if rest == [] then (if cur == [] then [] else [cur])
    else
      DropInvalidNonEmpty(rest);
      var r := DropInvalid(rest);
      if EndsWord(r) then [cur + [r[0]]] + Words(NextRest(r), [])
      else Words(NextRest(r), cur + [r[0]])
  }

  /**
   * Whether the word ends at the head rune of `r`: it is the last rune, an
   * underscore follows it, or it is lower case and the next rune is not.
   */
  predicate EndsWord(r: seq<char>)
    requires r != []
  {
    |r| == 1 || r[1] == '_' || (IsLower(r[0]) && !IsLower(r[1]))
  }

  /** What remains to scan after the head rune of `r`: a following run of underscores is skipped. */
  function NextRest(r: seq<char>): (n: seq<char>)
    requires r != [] && ValidIdentifier(r[|r| - 1])
    ensures |n| < |r|
    ensures n == [] || ValidIdentifier(n[|n| - 1])
    ensures FilterValid(n) == FilterValid(r[1..])
  {
    if |r| == 1 then []
    else if r[1] == '_' then
      DropUnderscoresNonEmpty(r[1..]);
      DropUnderscores(r[1..])
    else r[1..]
  }

  lemma DropUnderscoresNonEmpty(s: seq<char>)
    requires s != [] && ValidIdentifier(s[|s| - 1])
    ensures DropUnderscores(s) != [] && DropUnderscores(s)[|DropUnderscores(s)| - 1] == s[|s| - 1]
    ensures |DropUnderscores(s)| <= |s|
    ensures FilterValid(DropUnderscores(s)) == FilterValid(s)
  {
    var k := 0;
    while k < |s| && s[k] == '_'
      invariant 0 <= k <= |s|
      invariant forall j :: 0 <= j < k ==> s[j] == '_'
    {
      k := k + 1;
    }
    DropUnderscoresAt(s, k);
  }

  /**
   * The case rules applied to one word: an initialism is written upper case
   * (lower case as the first word of a lower-camel identifier); an
   * all-lower-case word gets an upper-case first rune unless it is the first
   * word of a lower-camel identifier; the first rune of a lower-camel
   * identifier is lower case.
   */
  function CaseWord(word: seq<char>, first: bool, firstUpper: bool): (r: seq<char>)
    requires |word| > 0
  {
    var cased :=
      if IsInitialism(word) then
        (if first && !firstUpper then Lower(word) else Upper(word))
      else if Lower(word) == word && (!first || firstUpper) then word[0 := ToUpperChar(word[0])]
      else word;
    if first && !firstUpper then cased[0 := ToLowerChar(cased[0])] else cased
  }

  /** The words of an identifier, each cased by its position. */
  function CasedJoin(ws: seq<seq<char>>, first: bool, firstUpper: bool): seq<char>
    requires NonEmptyWords(ws)
  {
    if ws == [] then [] else CaseWord(ws[0], first, firstUpper) + CasedJoin(ws[1..], false, firstUpper)
  }

  /**
   * The identifier Jsify produces: "number" for a Go numeric type name,
   * otherwise the words of the trimmed input, each cased by its position.
   */
  function Jsified(s: string, firstUpper: bool): string {
    if s in NumericAliases then "number"
    else
      CasedJoin(Words(TrimTrailing(s), []), true, firstUpper)
  }

  // ---------------------------------------------------------------------
  // Properties of the identifier
  // ---------------------------------------------------------------------

  /** The runes of a list of words, one after the other. */
  function Concat(ws: seq<seq<char>>): seq<char> {
    if ws == [] then [] else ws[0] + Concat(ws[1..])
  }

  /** The words hold exactly the letters and digits still to scan. */
  lemma {:induction false} WordsConcat(rest: seq<char>, cur: seq<char>)
    requires rest == [] || ValidIdentifier(rest[|rest| - 1])
    ensures Concat(Words(rest, cur)) == cur + FilterValid(rest)
    decreases |rest|
  {
    if rest != [] {
      WordsStep(rest, cur);
      var r := DropInvalid(rest);
      var next := NextRest(r);
      assert FilterValid(rest) == [r[0]] + FilterValid(next) by {
        DropInvalidNonEmpty(rest);
        assert r == [r[0]] + r[1..];
      }
      if EndsWord(r) {
        WordsConcat(next, []);
        assert Concat(Words(rest, cur)) == (cur + [r[0]]) + Concat(Words(next, []));
        assert [] + FilterValid(next) == FilterValid(next);
      } else {
        WordsConcat(next, cur + [r[0]]);
      }
      AppendAssoc(cur, [r[0]], FilterValid(next));
    }
  }

  /** Casing a word keeps its length and its letters, up to case. */
  lemma CaseWordLetters(word: seq<char>, first: bool, firstUpper: bool)
    requires |word| > 0
    ensures |CaseWord(word, first, firstUpper)| == |word|
    ensures Lower(CaseWord(word, first, firstUpper)) == Lower(word)
  {
    var r := CaseWord(word, first, firstUpper);
    forall k | 0 <= k < |word| ensures ToLowerChar(r[k]) == ToLowerChar(word[k]) {
      LowerOfCaseChange(word[k]);
      LowerOfCaseChange(ToUpperChar(word[k]));
      LowerOfCaseChange(ToLowerChar(word[k]));
    }
  }

  lemma {:induction false} CasedJoinLetters(ws: seq<seq<char>>, first: bool, firstUpper: bool)
    requires NonEmptyWords(ws)
    ensures |CasedJoin(ws, first, firstUpper)| == |Concat(ws)|
    ensures Lower(CasedJoin(ws, first, firstUpper)) == Lower(Concat(ws))
  {
    if ws != [] {
      CaseWordLetters(ws[0], first, firstUpper);
      CasedJoinLetters(ws[1..], false, firstUpper);
      LowerAppend(CaseWord(ws[0], first, firstUpper), CasedJoin(ws[1..], false, firstUpper));
      LowerAppend(ws[0], Concat(ws[1..]));
    }
  }

  lemma {:induction false} CasedJoinSnoc(ws: seq<seq<char>>, x: seq<char>, first: bool, firstUpper: bool)
    requires NonEmptyWords(ws)
    requires |x| > 0
    ensures CasedJoin(ws + [x], first, firstUpper)
         == CasedJoin(ws, first, firstUpper) + CaseWord(x, first && ws == [], firstUpper)
  {
    if ws == [] {
      assert ws + [x] == [x];
    } else {
      var wx := ws + [x];
      assert wx[0] == ws[0] && wx[1..] == ws[1..] + [x];
      var head, rest, last := CaseWord(ws[0], first, firstUpper), CasedJoin(ws[1..], false, firstUpper), CaseWord(x, false, firstUpper);
      assert CasedJoin(wx, first, firstUpper) == head + CasedJoin(ws[1..] + [x], false, firstUpper);
      CasedJoinSnoc(ws[1..], x, false, firstUpper);
      assert CasedJoin(ws, first, firstUpper) == head + rest;
      AppendAssoc(head, rest, last);
    }
  }

  /** A rune is valid exactly when its lower-case form is. */
  lemma ValidByLower(c: char, d: char)
    requires ToLowerChar(c) == ToLowerChar(d) && ValidIdentifier(d)
    ensures ValidIdentifier(c)
  {
  }

  /**
   * Apart from the numeric type names, Jsify keeps exactly the letters and
   * digits of its input, in order, changing only their case: the result is
   * a string of letters and digits no longer than the input.
   */
  lemma JsifiedKeepsLetters(s: string, firstUpper: bool)
    requires s !in NumericAliases
    ensures Lower(Jsified(s, firstUpper)) == Lower(FilterValid(s))
    ensures |Jsified(s, firstUpper)| == |FilterValid(s)| <= |s|
    ensures AllValid(Jsified(s, firstUpper))
  {
    var t := TrimTrailing(s);
    var ws := Words(t, []);
    var r, f := Jsified(s, firstUpper), FilterValid(s);
    assert Concat(ws) == f by {
      TrimTrailingIsPrefix(s);
      WordsConcat(t, []);
      assert [] + FilterValid(t) == FilterValid(t);
    }
    assert r == CasedJoin(ws, true, firstUpper);
    assert Lower(r) == Lower(f) && |r| == |f| by {
      CasedJoinLetters(ws, true, firstUpper);
    }
    forall k | 0 <= k < |r| ensures ValidIdentifier(r[k]) {
      assert Lower(r)[k] == Lower(f)[k];
      ValidByLower(r[k], f[k]);
    }
  }

  /** The Go numeric type names all become "number", whatever the case flag. */
  lemma JsifiedNumeric(s: string, firstUpper: bool)
    requires s in NumericAliases
    ensures Jsified(s, firstUpper) == "number"
  {
  }

  /** A lower-camel identifier never starts with an upper-case letter. */
  lemma JsifiedLowerCamel(s: string)
    requires s !in NumericAliases && Jsified(s, false) != []
    ensures !IsUpper(Jsified(s, false)[0])
  {
    var ws := Words(TrimTrailing(s), []);
    CaseWordLetters(ws[0], true, false);
  }

  /** Every rune of `w` is a lower-case letter. */
  predicate AllLower(w: seq<char>) {
    forall j :: 0 <= j < |w| ==> IsLower(w[j])
  }

  /** A word that starts with a lower-case letter is lower case throughout. */
  predicate LowerLed(w: seq<char>) {
    |w| > 0 && (IsLower(w[0]) ==> AllLower(w))
  }

  /**
   * Words only ever ends a lower-case run at its last rune, so a word that
   * starts lower case is lower case throughout. `cur`, when it starts lower
   * case, is all lower case and the scan goes on with a lower-case rune.
   */
  lemma {:induction false} WordsLowerLed(rest: seq<char>, cur: seq<char>)
    requires rest == [] || ValidIdentifier(rest[|rest| - 1])
    requires cur != [] && IsLower(cur[0]) ==> AllLower(cur) && rest != [] && IsLower(rest[0])
    ensures forall k :: 0 <= k < |Words(rest, cur)| ==> LowerLed(Words(rest, cur)[k])
    decreases |rest|
  {
    if rest != [] {
      WordsStep(rest, cur);
      var r := DropInvalid(rest);
      var c := cur + [r[0]];
      var next := NextRest(r);
      assert IsLower(c[0]) ==> AllLower(c) && IsLower(r[0]) by {
        if cur != [] && IsLower(cur[0]) {
          assert r == rest;
        }
      }
      if EndsWord(r) {
        WordsLowerLed(next, []);
        var ws := Words(next, []);
        assert Words(rest, cur) == [c] + ws;
        forall k | 0 <= k < |[c] + ws| ensures LowerLed(([c] + ws)[k]) {
          if k > 0 {
            assert ([c] + ws)[k] == ws[k - 1];
          }
        }
      } else {
        assert IsLower(r[0]) ==> next != [] && IsLower(next[0]);
        WordsLowerLed(next, c);
      }
    }
  }

  /**
   * Casing a word that starts with a letter gives it an upper-case first
   * rune, except as the first word of a lower-camel identifier.
   */
  lemma CaseWordCapital(w: seq<char>, first: bool, firstUpper: bool)
    requires LowerLed(w) && IsLetter(w[0]) && (!first || firstUpper)
    ensures IsUpper(CaseWord(w, first, firstUpper)[0])
  {
    if IsLower(w[0]) {
      assert Lower(w) == w;
    }
  }

  /** Where word k of `ws` begins once the words are joined. */
  function WordStart(ws: seq<seq<char>>, k: nat): nat
    requires k <= |ws|
  {
    if k == 0 then 0 else |ws[0]| + WordStart(ws[1..], k - 1)
  }

  /** The rune at the start of word k of the joined identifier is the first rune of that word, cased. */
  lemma CasedJoinWordStart(ws: seq<seq<char>>, k: nat, first: bool, firstUpper: bool)
    requires NonEmptyWords(ws) && k < |ws|
    ensures WordStart(ws, k) < |CasedJoin(ws, first, firstUpper)|
    ensures CasedJoin(ws, first, firstUpper)[WordStart(ws, k)] == CaseWord(ws[k], first && k == 0, firstUpper)[0]
  {
    var cs := CasedWords(ws, first, firstUpper);
    CasedJoinConcat(ws, first, firstUpper);
    CasedWordsShape(ws, first, firstUpper);
    CasedWordsAt(ws, first, firstUpper, k);
    WordStartSame(cs, ws, k);
    ConcatWordStart(cs, k);
  }

  /** The words of an identifier, each cased by its position, before they are joined. */
  function CasedWords(ws: seq<seq<char>>, first: bool, firstUpper: bool): seq<seq<char>>
    requires NonEmptyWords(ws)
  {
    if ws == [] then [] else [CaseWord(ws[0], first, firstUpper)] + CasedWords(ws[1..], false, firstUpper)
  }

  lemma {:induction false} CasedJoinConcat(ws: seq<seq<char>>, first: bool, firstUpper: bool)
    requires NonEmptyWords(ws)
    ensures CasedJoin(ws, first, firstUpper) == Concat(CasedWords(ws, first, firstUpper))
  {
    if ws != [] {
      var cs := CasedWords(ws, first, firstUpper);
      CasedJoinConcat(ws[1..], false, firstUpper);
      assert cs[0] == CaseWord(ws[0], first, firstUpper);
      assert cs[1..] == CasedWords(ws[1..], false, firstUpper);
    }
  }

  /** Casing keeps the number of words and the length of each. */
  lemma {:induction false} CasedWordsShape(ws: seq<seq<char>>, first: bool, firstUpper: bool)
    requires NonEmptyWords(ws)
    ensures |CasedWords(ws, first, firstUpper)| == |ws|
    ensures forall j :: 0 <= j < |ws| ==> |CasedWords(ws, first, firstUpper)[j]| == |ws[j]|
  {
    if ws != [] {
      var cs, rest := CasedWords(ws, first, firstUpper), CasedWords(ws[1..], false, firstUpper);
      CasedWordsShape(ws[1..], false, firstUpper);
      CaseWordLength(ws[0], first, firstUpper);
      assert cs == [CaseWord(ws[0], first, firstUpper)] + rest;
      forall j | 0 < j < |ws|
        ensures |cs[j]| == |ws[j]|
      {
        assert cs[j] == rest[j - 1] && ws[j] == ws[1..][j - 1];
      }
    }
  }

  /** Word k is cased as the first word only when k is 0. */
  lemma {:induction false} CasedWordsAt(ws: seq<seq<char>>, first: bool, firstUpper: bool, k: nat)
    requires NonEmptyWords(ws) && k < |ws|
    ensures k < |CasedWords(ws, first, firstUpper)|
    ensures CasedWords(ws, first, firstUpper)[k] == CaseWord(ws[k], first && k == 0, firstUpper)
  {
    CasedWordsShape(ws, first, firstUpper);
    if k > 0 {
      var rest := CasedWords(ws[1..], false, firstUpper);
      CasedWordsAt(ws[1..], false, firstUpper, k - 1);
      assert CasedWords(ws, first, firstUpper) == [CaseWord(ws[0], first, firstUpper)] + rest;
      assert ws[1..][k - 1] == ws[k];
    }
  }

  /** Word k starts at the same place in two lists of words of the same lengths. */
  lemma {:induction false} WordStartSame(xs: seq<seq<char>>, ys: seq<seq<char>>, k: nat)
    requires |xs| == |ys| && k <= |xs|
    requires forall j :: 0 <= j < |ys| ==> |xs[j]| == |ys[j]|
    ensures WordStart(xs, k) == WordStart(ys, k)
  {
    if k > 0 {
      assert |xs[0]| == |ys[0]|;
      WordStartSame(xs[1..], ys[1..], k - 1);
    }
  }

  /** In the runes of non-empty words, word k starts at WordStart. */
  lemma {:induction false} ConcatWordStart(cs: seq<seq<char>>, k: nat)
    requires NonEmptyWords(cs) && k < |cs|
    ensures WordStart(cs, k) < |Concat(cs)|
    ensures Concat(cs)[WordStart(cs, k)] == cs[k][0]
  {
    assert Concat(cs) == cs[0] + Concat(cs[1..]);
    if k > 0 {
      var i := WordStart(cs[1..], k - 1);
      assert NonEmptyWords(cs[1..]) && cs[1..][k - 1] == cs[k];
      ConcatWordStart(cs[1..], k - 1);
      assert Concat(cs)[|cs[0]| + i] == Concat(cs[1..])[i];
    }
  }

  lemma CaseWordLength(word: seq<char>, first: bool, firstUpper: bool)
    requires |word| > 0
    ensures |CaseWord(word, first, firstUpper)| == |word|
  {
  }

  /**
   * The camel case of Jsify: every word after the first starts with an
   * upper-case rune when it starts with a letter, and so does the first word
   * of an upper-camel identifier.
   */
  lemma JsifiedWordsCapitalised(s: string, firstUpper: bool, k: nat)
    requires s !in NumericAliases
    requires k < |Words(TrimTrailing(s), [])|
    requires k > 0 || firstUpper
    requires IsLetter(Words(TrimTrailing(s), [])[k][0])
    ensures var i := WordStart(Words(TrimTrailing(s), []), k);
      i < |Jsified(s, firstUpper)| && IsUpper(Jsified(s, firstUpper)[i])
  {
    var ws := Words(TrimTrailing(s), []);
    WordsLowerLed(TrimTrailing(s), []);
    CasedJoinWordStart(ws, k, true, firstUpper);
    CaseWordCapital(ws[k], k == 0, firstUpper);
  }

  /** Two runes equal up to case are both letters or both not. */
  lemma LetterByLower(c: char, d: char)
    requires ToLowerChar(c) == ToLowerChar(d) && IsLetter(c)
    ensures IsLetter(d)
  {
  }

  /** An upper-camel identifier that starts with a letter starts with an upper-case one. */
  lemma JsifiedUpperCamel(s: string)
    requires s !in NumericAliases && Jsified(s, true) != [] && IsLetter(Jsified(s, true)[0])
    ensures IsUpper(Jsified(s, true)[0])
  {
    var ws := Words(TrimTrailing(s), []);
    assert ws != [];
    CaseWordLetters(ws[0], true, true);
    CasedJoinWordStart(ws, 0, true, true);
    var c := CaseWord(ws[0], true, true);
    assert Lower(c)[0] == Lower(ws[0])[0];
    LetterByLower(c[0], ws[0][0]);
    JsifiedWordsCapitalised(s, true, 0);
  }

  /**
   * What a caller may rely on from Jsify: a Go numeric type name gives
   * "number"; anything else gives letters and digits only, spelling the
   * letters and digits of the input up to case, with an upper-case first
   * rune in upper camel case (when it is a letter) and never in lower camel
   * case.
   */
  predicate JsIdentifierOf(r: string, s: string, firstUpper: bool) {
    if s in NumericAliases then r == "number"
    else
      && AllValid(r)
      && Lower(r) == Lower(FilterValid(s))
      && (firstUpper && r != [] && IsLetter(r[0]) ==> IsUpper(r[0]))
      && (!firstUpper && r != [] ==> !IsUpper(r[0]))
  }

  lemma JsifiedIdentifier(s: string, firstUpper: bool)
    ensures JsIdentifierOf(Jsified(s, firstUpper), s, firstUpper)
  {
    if s !in NumericAliases {
      JsifiedKeepsLetters(s, firstUpper);
      var r := Jsified(s, firstUpper);
      if r != [] {
        if firstUpper {
          if IsLetter(r[0]) {
            JsifiedUpperCamel(s);
          }
        } else {
          JsifiedLowerCamel(s);
        }
      }
    }
  }

  /** Examples of the case rules: initialisms and underscore-separated words. */
  lemma WordsOfId()
    ensures Words("id", []) == ["id"]
  {
    assert DropInvalid("d") == "d";
    assert "i" + ['d'] == "id";
    assert Words("d", "i") == ["id"];
    assert DropInvalid("id") == "id";
    assert "id"[1..] == "d" && [] + ['i'] == "i";
  }

  lemma WordsOfRId()
    ensures Words("r_id", "use") == ["user", "id"]
  {
    WordsOfId();
    assert DropUnderscores("_id") == "id";
    assert DropInvalid("r_id") == "r_id";
    assert "use" + ['r'] == "user" && "r_id"[1..] == "_id";
    assert Words("r_id", "use") == ["user"] + ["id"];
  }

  lemma WordsOfErId()
    ensures Words("er_id", "us") == ["user", "id"]
  {
    WordsOfRId();
    assert DropInvalid("er_id") == "er_id";
    assert "us" + ['e'] == "use" && "er_id"[1..] == "r_id";
  }

  lemma WordsOfSerId()
    ensures Words("ser_id", "u") == ["user", "id"]
  {
    WordsOfErId();
    assert DropInvalid("ser_id") == "ser_id";
    assert "u" + ['s'] == "us" && "ser_id"[1..] == "er_id";
  }

  lemma WordsOfUserId()
    ensures Words("user_id", []) == ["user", "id"]
  {
    WordsOfSerId();
    assert DropInvalid("user_id") == "user_id";
    assert [] + ['u'] == "u" && "user_id"[1..] == "ser_id";
  }

  /** As the first word of a lower-camel identifier "user" stays as it is, initialism or not. */
  lemma CaseWordUser()
    ensures CaseWord("user", true, false) == "user"
  {
    assert Lower("user") == "user";
  }

  /** "id" is an initialism: after the first word it is written upper case. */
  lemma CaseWordId()
    ensures CaseWord("id", false, false) == "ID"
  {
    InitialismUpper("id");
    assert Upper("id") == "ID";
  }

  lemma CasedJoinUserId()
    ensures CasedJoin(["user", "id"], true, false) == "userID"
  {
    CaseWordUser();
    CaseWordId();
    assert ["user", "id"][1..] == ["id"];
    assert CasedJoin(["id"], false, false) == "ID";
  }

  /** Example of the case rules: an initialism after the first word is upper case. */
  lemma JsifiedUserId()
    ensures Jsified("user_id", false) == "userID"
  {
    assert "user_id" !in NumericAliases;
    var words := Words(TrimTrailing("user_id"), []);
    assert TrimTrailing("user_id") == "user_id";
    WordsOfUserId();
    assert words == ["user", "id"];
    CasedJoinUserId();
  }

  // ---------------------------------------------------------------------
  // The rune-editing implementation
  // ---------------------------------------------------------------------

  /** removeTrailingInvalid: drops trailing runes that are not letters or digits. */
  method RemoveTrailingInvalid(runes: seq<char>) returns (r: seq<char>)
    ensures r == TrimTrailing(runes)
  {
    var valid := |runes| - 1;
    assert runes[..valid + 1] == runes;
    while valid >= 0 && !ValidIdentifier(runes[valid])
      invariant -1 <= valid < |runes|
      invariant TrimTrailing(runes[..valid + 1]) == TrimTrailing(runes)
    {
      assert runes[..valid + 1][..valid] == runes[..valid];
      valid := valid - 1;
    }
    r := runes[..valid + 1];
  }

  /** removeInvalidAtIndex: drops the run of invalid runes that starts at `i`. */
  method RemoveInvalidAtIndex(i: nat, runes: seq<char>) returns (r: seq<char>)
    requires i <= |runes|
    ensures r == runes[..i] + DropInvalid(runes[i..])
  {
    var valid := i;
    while valid < |runes| && !ValidIdentifier(runes[valid])
      invariant i <= valid <= |runes|
      invariant forall j :: i <= j < valid ==> !ValidIdentifier(runes[j])
    {
      valid := valid + 1;
    }
    assert forall j :: 0 <= j < valid - i ==> runes[i..][j] == runes[i + j];
    DropInvalidAt(runes[i..], valid - i);
    assert runes[i..][valid - i..] == runes[valid..];
    r := runes[..i] + runes[valid..];
  }

  /**
   * An underscore follows runes[i]: shift the remainder forward over the run
   * of underscores (Jsify, the `copy` over runes[i+n+1:]).
   */
  method ShiftOverUnderscores(runes: seq<char>, i: nat) returns (r: seq<char>)
    requires i + 1 < |runes| && runes[i + 1] == '_'
    requires ValidIdentifier(runes[|runes| - 1])
    ensures r == runes[..i + 1] + DropUnderscores(runes[i + 1..])
  {
    var n := 1;
    while i + n + 1 < |runes| && runes[i + n + 1] == '_'
      invariant 1 <= n && i + n < |runes|
      invariant forall j :: i + 1 <= j <= i + n ==> runes[j] == '_'
    {
      n := n + 1;
    }
    ghost var tail := runes[i + 1..];
    assert forall j :: 0 <= j < n ==> tail[j] == runes[i + 1 + j];
    DropUnderscoresAt(tail, n);
    assert tail[n..] == runes[i + n + 1..];
    r := runes[..i + 1] + runes[i + n + 1..];
  }

  /**
   * The word runes[w..i] is complete: re-case it in place (Jsify, the code
   * after "[w,i] is a word").
   */
  method CaseWordInPlace(runes: seq<char>, w: nat, i: nat, firstUpper: bool) returns (r: seq<char>)
    requires w < i <= |runes|
    ensures r == runes[..w] + CaseWord(runes[w..i], w == 0, firstUpper) + runes[i..]
  {
    var word := runes[w..i];
    var u := Upper(word);
    ghost var before, after := runes[..w], runes[i..];
    ghost var cased := word;
    r := runes;
    assert r == before + cased + after;
    InitialismUpper(word);
    if u in CommonInitialisms {
      if firstUpper {
        UpperUpper(word);
        u := Upper(u);
      } else if w == 0 {
        LowerUpper(word);
        u := Lower(u);
      }
      // all the initialisms are ASCII, so the runes are replaced one for one
      assert r[w + |u|..] == after;
      r := r[..w] + u + r[w + |u|..];
      cased := u;
    } else if w > 0 && Lower(word) == word {
      SetFirst(before, cased, after, ToUpperChar(r[w]));
      r := r[w := ToUpperChar(r[w])];
      cased := word[0 := ToUpperChar(word[0])];
    } else if w == 0 && Lower(word) == word && firstUpper {
      SetFirst(before, cased, after, ToUpperChar(r[w]));
      r := r[w := ToUpperChar(r[w])];
      cased := word[0 := ToUpperChar(word[0])];
    }
    assert r == before + cased + after;
    if w == 0 && !firstUpper {
      SetFirst(before, cased, after, ToLowerChar(r[w]));
      r := r[w := ToLowerChar(r[w])];
      cased := cased[0 := ToLowerChar(cased[0])];
    }
    assert cased == CaseWord(word, w == 0, firstUpper);
  }

  /** Setting the rune at which the middle part starts changes the middle part only. */
  lemma SetFirst(before: seq<char>, mid: seq<char>, after: seq<char>, c: char)
    requires |mid| > 0
    ensures (before + mid + after)[|before| := c] == before + mid[0 := c] + after
  {
  }

  /**
   * One step of the Jsify scan at index `i`: the invalid runes from `i` on
   * are removed, and when runes[i] ends a word because an underscore follows
   * it, the run of underscores is shifted out as well.
   */
  method ScanRune(runes: seq<char>, i: nat) returns (r: seq<char>, eow: bool)
    requires i < |runes| && ValidIdentifier(runes[|runes| - 1])
    ensures i < |r| <= |runes| && r[..i] == runes[..i]
    ensures DropInvalid(runes[i..]) != [] && ValidIdentifier(DropInvalid(runes[i..])[|DropInvalid(runes[i..])| - 1])
    ensures r[i] == DropInvalid(runes[i..])[0]
    ensures eow == EndsWord(DropInvalid(runes[i..]))
    ensures r[i + 1..] == NextRest(DropInvalid(runes[i..]))
  {
    ghost var rest := runes[i..];
    r := RemoveInvalidAtIndex(i, runes);
    DropInvalidNonEmpty(rest);
    ghost var scanned := DropInvalid(rest);
    assert r[..i] == runes[..i] && r[i..] == scanned;
    eow := false;
    if i + 1 == |r| {
      eow := true;
    } else if !ValidIdentifier(r[i]) {
      // Go deletes runes[i] here; the removal above makes this branch dead.
      assert false;
    } else if r[i + 1] == '_' {
      // an underscore ends the word
      eow := true;
      r := ShiftOverUnderscores(r, i);
    } else if IsLower(r[i]) && !IsLower(r[i + 1]) {
      // lower case followed by anything else
      eow := true;
    }
  }

  /** One unfolding of Words, for use where the definition is not in view. */
  lemma WordsStep(rest: seq<char>, cur: seq<char>)
    requires rest != [] && ValidIdentifier(rest[|rest| - 1])
    ensures DropInvalid(rest) != [] && ValidIdentifier(DropInvalid(rest)[|DropInvalid(rest)| - 1])
    ensures Words(rest, cur)
         == if EndsWord(DropInvalid(rest)) then [cur + [DropInvalid(rest)[0]]] + Words(NextRest(DropInvalid(rest)), [])
            else Words(NextRest(DropInvalid(rest)), cur + [DropInvalid(rest)[0]])
  {
    DropInvalidNonEmpty(rest);
  }

  lemma SamePrefix(a: seq<char>, b: seq<char>, w: nat, i: nat)
    requires w <= i < |a| && i <= |b| && a[..i] == b[..i]
    ensures a[..w] == b[..w] && a[w..i + 1] == b[w..i] + [a[i]]
  {
    assert a[..w] == a[..i][..w] && b[..w] == b[..i][..w];
    assert a[w..i] == a[..i][w..] && b[w..i] == b[..i][w..];
    assert a[w..i + 1] == a[w..i] + [a[i]];
  }

  /**
   * The word runes[w..i] is complete: it is re-cased in place and joins the
   * words already written before `w`.
   */
  method CloseWord(ghost all: seq<seq<char>>, runes: seq<char>, w: nat, i: nat, firstUpper: bool, ghost words: seq<seq<char>>)
    returns (r: seq<char>, ghost ws: seq<seq<char>>)
    requires w < i <= |runes|
    requires NonEmptyWords(words) && (w == 0) == (words == [])
    requires runes[..w] == CasedJoin(words, true, firstUpper)
    requires Scanned(all, runes, i, i, words + [runes[w..i]])
    ensures |r| == |runes| && r[i..] == runes[i..]
    ensures ws == words + [runes[w..i]]
    ensures Scanned(all, r, i, i, ws)
    ensures r[..i] == CasedJoin(ws, true, firstUpper)
  {
    var word := runes[w..i];
    r := CaseWordInPlace(runes, w, i, firstUpper);
    CasedJoinSnoc(words, word, true, firstUpper);
    ws := words + [word];
    assert r[..i] == runes[..w] + CaseWord(word, w == 0, firstUpper);
    assert r[i..] == runes[i..] && r[i..i] == runes[i..i];
  }

  /**
   * What the Jsify scan keeps: `words` are the finished words, runes[w..i]
   * is the word under construction and runes[i..] is still to scan; with
   * them, they make up the words `all` of the whole input.
   */
  ghost predicate Scanned(all: seq<seq<char>>, runes: seq<char>, w: nat, i: nat, words: seq<seq<char>>)
  {
    && w <= i <= |runes|
    && (runes[i..] == [] || ValidIdentifier(runes[|runes| - 1]))
    && NonEmptyWords(words) && (w == 0) == (words == [])
    && words + Words(runes[i..], runes[w..i]) == all
    && (i == |runes| ==> w == i)
  }

  /** One iteration of the Jsify scan: runes[i] joins the current word, which may end there. */
  method ScanStep(ghost all: seq<seq<char>>, runes: seq<char>, w: nat, i: nat, ghost words: seq<seq<char>>)
    returns (r: seq<char>, eow: bool)
    requires i < |runes| && Scanned(all, runes, w, i, words)
    ensures i < |r| <= |runes| && r[..w] == runes[..w]
    ensures eow ==> Scanned(all, r, i + 1, i + 1, words + [r[w..i + 1]])
    ensures !eow ==> Scanned(all, r, w, i + 1, words)
  {
    r, eow := ScanRune(runes, i);
    ghost var cur, rest := runes[w..i], runes[i..];
    assert words + Words(rest, cur) == all;
    WordsStep(rest, cur);
    SamePrefix(r, runes, w, i);
    ghost var next := NextRest(DropInvalid(rest));
    ghost var grown := cur + [r[i]];
    assert r[i + 1..] == next && r[w..i + 1] == grown;
    if eow {
      assert Words(rest, cur) == [grown] + Words(next, []);
      ScannedClosed(all, r, i, words, grown, next);
    } else {
      assert Words(rest, cur) == Words(next, grown);
      assert next != [];
      ScannedGrown(all, r, w, i, words, next);
    }
  }

  /** The word ending at `i` has joined the finished words. */
  lemma ScannedClosed(all: seq<seq<char>>, r: seq<char>, i: nat, words: seq<seq<char>>, grown: seq<char>, next: seq<char>)
    requires i < |r| && r[i + 1..] == next && (next == [] || ValidIdentifier(next[|next| - 1]))
    requires |grown| > 0 && NonEmptyWords(words)
    requires words + ([grown] + Words(next, [])) == all
    ensures Scanned(all, r, i + 1, i + 1, words + [grown])
  {
    assert r[i + 1..i + 1] == [];
    AppendAssoc(words, [grown], Words(next, []));
    assert NonEmptyWords(words + [grown]) by {
      assert forall k :: 0 <= k < |words| ==> (words + [grown])[k] == words[k];
    }
  }

  /** The current word has grown by the rune at `i`. */
  lemma ScannedGrown(all: seq<seq<char>>, r: seq<char>, w: nat, i: nat, words: seq<seq<char>>, next: seq<char>)
    requires w <= i < |r| && r[i + 1..] == next && next != [] && ValidIdentifier(next[|next| - 1])
    requires NonEmptyWords(words) && (w == 0) == (words == [])
    requires words + Words(next, r[w..i + 1]) == all
    ensures Scanned(all, r, w, i + 1, words)
  {
  }

  /**
   * The word-cutting and re-casing loop of Jsify, over runes whose last rune
   * (if any) is a letter or a digit.
   */
  method CamelCase(runes: seq<char>, firstUpper: bool) returns (r: seq<char>)
    requires runes == [] || ValidIdentifier(runes[|runes| - 1])
    ensures r == CasedJoin(Words(runes, []), true, firstUpper)
  {
    ghost var all := Words(runes, []);
    ghost var words: seq<seq<char>> := [];
    r := runes;
    var w: nat, i: nat := 0, 0; // index of start of word, scan
    ScannedStart(runes, firstUpper);
    while i + 1 <= |r|
      invariant Scanned(all, r, w, i, words)
      invariant r[..w] == CasedJoin(words, true, firstUpper)
      decreases |r| - i
    {
      var eow; // whether we hit the end of a word
      r, eow := ScanStep(all, r, w, i, words);
      i := i + 1;
      if eow {
        // r[w..i] is a word
        r, words := CloseWord(all, r, w, i, firstUpper, words);
        w := i;
      }
    }
    ScannedAll(all, r, w, i, words);
  }

  /** Before the scan nothing is cut and all the words are still ahead. */
  lemma ScannedStart(runes: seq<char>, firstUpper: bool)
    requires runes == [] || ValidIdentifier(runes[|runes| - 1])
    ensures Scanned(Words(runes, []), runes, 0, 0, [])
    ensures runes[..0] == CasedJoin([], true, firstUpper)
  {
    assert runes[0..] == runes && runes[0..0] == [];
  }

  /** A finished scan has cut all the words. */
  lemma ScannedAll(all: seq<seq<char>>, runes: seq<char>, w: nat, i: nat, words: seq<seq<char>>)
    requires Scanned(all, runes, w, i, words) && i + 1 > |runes|
    ensures runes[..w] == runes && words == all
  {
    assert runes[i..] == [] && runes[w..i] == [];
    assert words + [] == words;
  }

  /**
   * Jsify: makes a camel-case JavaScript identifier out of any string by
   * deleting, from a slice of runes, every rune that is not a letter or a
   * digit, cutting the rest into words and re-casing each word in place.
   */
  method Jsify(str: string, firstUpper: bool) returns (r: string)
    ensures r == Jsified(str, firstUpper)
  {
    if str in NumericAliases {
      return "number";
    }
    var runes := RemoveTrailingInvalid(str);
    r := CamelCase(runes, firstUpper);
  }
}
