/**
 List-valued configuration parameters: splitting, quoting and the canonical
 form under which spellings are compared.
 */
module Guc {
  import Sequences
  import opened Model

  const LIST_QUOTE_PARAMETERS: seq<string> :=
    ["local_preload_libraries", "search_path", "session_preload_libraries",
     "shared_preload_libraries", "temp_tablespaces"]

  predicate IsListQuoteParameter(parameter: string) {
    parameter in LIST_QUOTE_PARAMETERS
  }

  // ---- Characters ----

  /** Unicode White_Space. */
  predicate IsWhitespace(c: char) {
    var n := c as int;
    || 0x09 <= n <= 0x0D || n == 0x20 || n == 0x85 || n == 0xA0 || n == 0x1680 || 0x2000 <= n <= 0x200A
    || n == 0x2028 || n == 0x2029 || n == 0x202F || n == 0x205F || n == 0x3000
  }

  predicate IsSeparator(c: char) {
    IsWhitespace(c) || c == ','
  }

  const QUOTE := '"'

  predicate IsLower(c: char) {
    'a' <= c <= 'z'
  }

  predicate IsDigit(c: char) {
    '0' <= c <= '9'
  }

  // ---- Splitting, said recursively ----

  function SkipSeparators(v: string): (r: string)
    ensures |r| <= |v| && (r == "" || !IsSeparator(r[0]))
  {
    if v != "" && IsSeparator(v[0]) then SkipSeparators(v[1..]) else v
  }

  /** The element up to the closing quote, and what follows it; nothing when the quote never closes. */
  function Quoted(v: string): (r: Option<(string, string)>)
    ensures r.Some? ==> |r.value.1| < |v|
  {
    if v == "" then None
    else if v[0] != QUOTE then
      var r := Quoted(v[1..]);
      if r.None? then None else Some(([v[0]] + r.value.0, r.value.1))
    else if |v| > 1 && v[1] == QUOTE then
      var r := Quoted(v[2..]);
      if r.None? then None else Some(([QUOTE] + r.value.0, r.value.1))
    else Some(("", v[1..]))
  }

  function Bare(v: string): (r: (string, string))
    ensures |r.1| <= |v| && (v != "" && !IsSeparator(v[0]) ==> |r.1| < |v|)
  {
    if v == "" || IsSeparator(v[0]) then ("", v)
    else var r := Bare(v[1..]); ([v[0]] + r.0, r.1)
  }

  function Element(v: string): (r: Option<(string, string)>)
    requires v != "" && !IsSeparator(v[0])
    ensures r.Some? ==> |r.value.1| < |v|
  {
    if v[0] == QUOTE then Quoted(v[1..]) else Some(Bare(v))
  }

  function Split(v: string): Option<seq<string>>
    decreases |v|
  {
    var s := SkipSeparators(v);
    if s == "" then Some([])
    else
      var e := Element(s);
      if e.None? then None
      else
        var rest := Split(e.value.1);
        if rest.None? then None else Some([e.value.0] + rest.value)
  }

  // ---- Splitting, as a loop over characters ----

  method ReadQuoted(value: string, start: nat) returns (closed: bool, element: string, next: nat)
    requires start <= |value|
    ensures next <= |value|
    ensures closed <==> Quoted(value[start..]).Some?
    ensures closed ==> Quoted(value[start..]) == Some((element, value[next..]))
  {
    element, next, closed := "", start, false;
    NothingPrefixed(Quoted(value[start..]));
    while next < |value|
      invariant start <= next <= |value|
      invariant Quoted(value[start..]) == Prefixed(element, Quoted(value[next..]))
      decreases |value| - next
    {
      var c := value[next];
      assert value[next..][0] == c && value[next..][1..] == value[next + 1..];
      if c == QUOTE {
        if next + 1 < |value| && value[next + 1] == QUOTE {
          assert value[next..][1] == QUOTE && value[next..][2..] == value[next + 2..];
          PrefixedPush(element, QUOTE, Quoted(value[next + 2..]));
          element, next := element + [QUOTE], next + 2;
        } else {
          assert |value[next..]| > 1 ==> value[next..][1] == value[next + 1];
          next := next + 1;
          assert element + "" == element;
          return true, element, next;
        }
      } else {
        PrefixedPush(element, c, Quoted(value[next + 1..]));
        element, next := element + [c], next + 1;
      }
    }
  }

  function Prefixed(p: string, r: Option<(string, string)>): Option<(string, string)> {
    if r.None? then None else Some((p + r.value.0, r.value.1))
  }

  lemma NothingPrefixed(r: Option<(string, string)>)
    ensures Prefixed("", r) == r
  {
    if r.Some? {
      assert "" + r.value.0 == r.value.0;
    }
  }

  lemma PrefixedPush(p: string, c: char, r: Option<(string, string)>)
    ensures Prefixed(p, Prefixed([c], r)) == Prefixed(p + [c], r)
  {
    if r.Some? {
      assert p + ([c] + r.value.0) == p + [c] + r.value.0;
    }
  }

  method ReadBare(value: string, start: nat) returns (element: string, next: nat)
    requires start <= |value|
    ensures start <= next <= |value| && Bare(value[start..]) == (element, value[next..])
  {
    element, next := "", start;
    assert "" + Bare(value[start..]).0 == Bare(value[start..]).0;
    while next < |value| && !IsSeparator(value[next])
      invariant start <= next <= |value|
      invariant Bare(value[start..]) == (element + Bare(value[next..]).0, Bare(value[next..]).1)
    {
      assert value[next..][0] == value[next] && value[next..][1..] == value[next + 1..];
      var rest := Bare(value[next + 1..]).0;
      assert element + ([value[next]] + rest) == element + [value[next]] + rest;
      element, next := element + [value[next]], next + 1;
    }
    assert next < |value| ==> value[next..][0] == value[next];
    assert element + "" == element;
  }

  function Joined(init: seq<string>, rest: Option<seq<string>>): Option<seq<string>> {
    if rest.None? then None else Some(init + rest.value)
  }

  lemma JoinedPush(init: seq<string>, e: string, rest: Option<seq<string>>)
    ensures Joined(init, Joined([e], rest)) == Joined(init + [e], rest)
  {
    if rest.Some? {
      assert init + ([e] + rest.value) == init + [e] + rest.value;
    }
  }

  method SkipFrom(value: string, start: nat) returns (next: nat)
    requires start <= |value|
    ensures start <= next <= |value| && value[next..] == SkipSeparators(value[start..])
  {
    next := start;
    while next < |value| && IsSeparator(value[next])
      invariant start <= next <= |value|
      invariant SkipSeparators(value[start..]) == SkipSeparators(value[next..])
    {
      assert value[next..][0] == value[next] && value[next..][1..] == value[next + 1..];
      next := next + 1;
    }
    assert next < |value| ==> value[next..][0] == value[next];
  }

  method SplitGucList(value: string) returns (elements: Option<seq<string>>)
    ensures elements == Split(value)
  {
    var done: seq<string>, at := [], 0;
    assert value[0..] == value;
    assert Split(value).Some? ==> [] + Split(value).value == Split(value).value;
    while true
      invariant 0 <= at <= |value|
      invariant Split(value) == Joined(done, Split(value[at..]))
      decreases |value| - at
    {
      var first := SkipFrom(value, at);
      if first == |value| {
        assert done + [] == done;
        return Some(done);
      }
      assert value[first..][0] == value[first] && value[first..][1..] == value[first + 1..];
      var element, next;
      if value[first] == QUOTE {
        var closed;
        closed, element, next := ReadQuoted(value, first + 1);
        if !closed {
          return None;
        }
      } else {
        element, next := ReadBare(value, first);
      }
      JoinedPush(done, element, Split(value[next..]));
      assert |value[next..]| < |value[first..]|;
      done, at := done + [element], next;
    }
  }

  // ---- Quoting and joining ----

  predicate IsTail(c: char) {
    IsLower(c) || IsDigit(c) || c == '_'
  }

  /** A lowercase identifier, which needs no quotes. */
  predicate IsSimple(e: string) {
    e != "" && (IsLower(e[0]) || e[0] == '_') && forall i :: 0 < i < |e| ==> IsTail(e[i])
  }

  /** Quotes doubled. */
  function Escape(e: string): string {
    if e == "" then ""
    else (if e[0] == QUOTE then [QUOTE, QUOTE] else [e[0]]) + Escape(e[1..])
  }

  function QuoteElement(e: string): string {
    if IsSimple(e) then e else [QUOTE] + Escape(e) + [QUOTE]
  }

  function Print(elements: seq<string>): string {
    if elements == [] then ""
    else if |elements| == 1 then QuoteElement(elements[0])
    else QuoteElement(elements[0]) + ", " + Print(elements[1..])
  }

  function Canonical(value: string): string {
    var elements := Split(value);
    if elements.Some? then Print(elements.value) else value
  }

  // ---- Printing then splitting ----

  /** What may follow an element: nothing, or a separator. */
  predicate Bounded(t: string) {
    t == "" || t[0] == ','
  }

  lemma {:induction false} BareReads(e: string, t: string)
    requires (forall i :: 0 <= i < |e| ==> !IsSeparator(e[i])) && Bounded(t)
    ensures Bare(e + t) == (e, t)
  {
    if e == "" {
      assert e + t == t;
    } else {
      assert (e + t)[1..] == e[1..] + t && (e + t)[0] == e[0];
      BareReads(e[1..], t);
      assert [e[0]] + e[1..] == e;
    }
  }

  lemma {:induction false} QuotedReads(e: string, t: string)
    requires Bounded(t)
    ensures Quoted(Escape(e) + [QUOTE] + t) == Some((e, t))
  {
    var v := Escape(e) + [QUOTE] + t;
    if e == "" {
      assert v == [QUOTE] + t && v[1..] == t;
    } else {
      QuotedReads(e[1..], t);
      var rest := Escape(e[1..]) + [QUOTE] + t;
      assert [e[0]] + e[1..] == e;
      if e[0] == QUOTE {
        assert v == [QUOTE, QUOTE] + rest && v[2..] == rest;
      } else {
        assert v == [e[0]] + rest && v[1..] == rest;
      }
    }
  }

  lemma SimpleHasNoSeparators(e: string)
    requires IsSimple(e)
    ensures e[0] != QUOTE && forall i :: 0 <= i < |e| ==> !IsSeparator(e[i])
  {
    forall i | 0 <= i < |e| ensures !IsSeparator(e[i]) {
      assert IsTail(e[i]);
    }
  }

  /** A printed element is read back, and reading stops where it ends. */
  lemma ElementReads(e: string, t: string)
    requires Bounded(t)
    ensures var v := QuoteElement(e) + t;
      v != "" && !IsSeparator(v[0]) && Element(v) == Some((e, t))
  {
    if IsSimple(e) {
      SimpleReads(e, t);
    } else {
      EscapedReads(e, t);
    }
  }

  lemma SimpleReads(e: string, t: string)
    requires Bounded(t) && IsSimple(e)
    ensures var v := QuoteElement(e) + t;
      v != "" && !IsSeparator(v[0]) && Element(v) == Some((e, t))
  {
    SimpleHasNoSeparators(e);
    BareReads(e, t);
    assert (QuoteElement(e) + t)[0] == e[0];
  }

  lemma EscapedReads(e: string, t: string)
    requires Bounded(t) && !IsSimple(e)
    ensures var v := QuoteElement(e) + t;
      v != "" && !IsSeparator(v[0]) && Element(v) == Some((e, t))
  {
    var escaped := Escape(e);
    OpensQuote(escaped, t);
    QuotedReads(e, t);
    assert QuoteElement(e) == [QUOTE] + escaped + [QUOTE];
  }

  lemma OpensQuote(escaped: string, t: string)
    ensures var v := [QUOTE] + escaped + [QUOTE] + t;
      v != "" && v[0] == QUOTE && v[1..] == escaped + [QUOTE] + t
  {
  }

  lemma SkipsComma(t: string)
    ensures SkipSeparators(", " + t) == SkipSeparators(t)
  {
    var v := ", " + t;
    assert v[0] == ',' && v[1..][0] == ' ' && v[1..][1..] == t;
    assert SkipSeparators(v) == SkipSeparators(v[1..]) == SkipSeparators(v[1..][1..]);
  }

  /** Splitting the printed form of any list of strings gives the list back. */
  lemma {:induction false} PrintSplits(elements: seq<string>)
    ensures Split(Print(elements)) == Some(elements)
  {
    if elements != [] {
      var e, rest := elements[0], elements[1..];
      PrintSplits(rest);
      PrintParts(elements);
      TailSplits(rest);
      SplitsFirst(e, TailOf(rest), rest);
      assert [e] + rest == elements;
    }
  }

  /** What follows the first element. */
  function TailOf(rest: seq<string>): string {
    if rest == [] then "" else ", " + Print(rest)
  }

  lemma PrintParts(elements: seq<string>)
    requires elements != []
    ensures Print(elements) == QuoteElement(elements[0]) + TailOf(elements[1..])
  {
    var quoted, rest := QuoteElement(elements[0]), elements[1..];
    if rest != [] {
      Sequences.Assoc(quoted, ", ", Print(rest));
    }
  }

  lemma TailSplits(rest: seq<string>)
    requires Split(Print(rest)) == Some(rest)
    ensures Bounded(TailOf(rest)) && Split(TailOf(rest)) == Some(rest)
  {
    if rest != [] {
      SkipsComma(Print(rest));
      SplitAfterSkip(", " + Print(rest), Print(rest));
    }
  }

  /** A quoted element in front is the first of the list. */
  lemma SplitsFirst(e: string, t: string, rest: seq<string>)
    requires Bounded(t) && Split(t) == Some(rest)
    ensures Split(QuoteElement(e) + t) == Some([e] + rest)
  {
    ElementReads(e, t);
    assert SkipSeparators(QuoteElement(e) + t) == QuoteElement(e) + t;
  }

  lemma SplitAfterSkip(a: string, b: string)
    requires SkipSeparators(a) == SkipSeparators(b)
    ensures Split(a) == Split(b)
  {
  }

  // ---- The canonical form ----

  lemma CanonicalSplits(value: string)
    ensures Split(Canonical(value)) == Split(value)
  {
    if Split(value).Some? {
      PrintSplits(Split(value).value);
    }
  }

  /** Canonicalizing twice changes nothing more. */
  lemma CanonicalIsIdempotent(value: string)
    ensures Canonical(Canonical(value)) == Canonical(value)
  {
    CanonicalSplits(value);
  }

  /** Well-formed values have the same canonical form exactly when they split into the same elements. */
  lemma CanonicalDecidesEquality(v: string, w: string)
    requires Split(v).Some? && Split(w).Some?
    ensures Canonical(v) == Canonical(w) <==> Split(v) == Split(w)
  {
    CanonicalSplits(v);
    CanonicalSplits(w);
  }

  /** A value with an unterminated quote never equals a well-formed one. */
  lemma UnterminatedNeverEqual(v: string, w: string)
    requires Split(v).None? && Split(w).Some?
    ensures Canonical(v) == v && Canonical(v) != Canonical(w)
  {
    CanonicalSplits(v);
    CanonicalSplits(w);
  }
}
