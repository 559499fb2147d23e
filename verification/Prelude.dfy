/** Vocabulary shared by the account-store models: optional values and text normalisation. */
module Prelude {

  datatype Option<+T> = None | Some(value: T) {
    function OrElse(other: Option<T>): (r: Option<T>) {
      if Some? then this else other
    }
  }

  /** A stored time: an instant, or text that does not parse as one. */
  datatype Stamp = At(seconds: int) | Unreadable(text: string)

  /** A name for one account inside its provider's table. */
  type Id = string

  /** A name for one asynchronous task. */
  type Tid = nat

  /** The white space of ASCII: the blank, and tab, line feed, vertical tab, form feed and carriage return. */
  predicate IsSpace(c: char) {
    c == ' ' || '\t' <= c <= '\r'
  }

  function TrimStart(s: string): string {
    if s != [] && IsSpace(s[0]) then TrimStart(s[1..]) else s
  }

  function TrimEnd(s: string): string {
    if s != [] && IsSpace(s[|s| - 1]) then TrimEnd(s[..|s| - 1]) else s
  }

  function Trim(s: string): string {
    TrimEnd(TrimStart(s))
  }

  predicate Blank(s: string) {
    Trim(s) == ""
  }

  /** Trimming cuts white space off both ends, all of it and nothing else. */
  lemma {:induction false} TrimCuts(s: string) returns (a: nat, b: nat)
    ensures a <= b <= |s| && Trim(s) == s[a..b]
    ensures forall i :: 0 <= i < a || b <= i < |s| ==> s[i] in {' ', '\t', '\n', '\U{000B}', '\U{000C}', '\r'}
    ensures a < b ==> !IsSpace(s[a]) && !IsSpace(s[b - 1])
  {
    a := StartCuts(s);
    b := EndCuts(s[a..]);
    b := a + b;
    assert s[a..][..b - a] == s[a..b];
    assert forall i :: b <= i < |s| ==> s[i] == s[a..][i - a];
    assert a < b ==> s[b - 1] == s[a..][b - a - 1];
  }

  lemma {:induction false} StartCuts(s: string) returns (a: nat)
    ensures a <= |s| && TrimStart(s) == s[a..] && (a < |s| ==> !IsSpace(s[a]))
    ensures forall i :: 0 <= i < a ==> IsSpace(s[i])
  {
    if s != [] && IsSpace(s[0]) {
      var k := StartCuts(s[1..]);
      a := k + 1;
      assert s[1..][k..] == s[a..];
      assert forall i :: 0 < i < a ==> s[i] == s[1..][i - 1];
    } else {
      a := 0;
    }
  }

  lemma {:induction false} EndCuts(s: string) returns (b: nat)
    ensures b <= |s| && TrimEnd(s) == s[..b] && (b > 0 ==> !IsSpace(s[b - 1]))
    ensures forall i :: b <= i < |s| ==> IsSpace(s[i])
  {
    if s != [] && IsSpace(s[|s| - 1]) {
      b := EndCuts(s[..|s| - 1]);
      assert s[..|s| - 1][..b] == s[..b];
    } else {
      b := |s|;
    }
  }

  /** Blank is nothing but white space. */
  lemma BlankIff(s: string)
    ensures Blank(s) <==> forall i :: 0 <= i < |s| ==> s[i] in {' ', '\t', '\n', '\U{000B}', '\U{000C}', '\r'}
  {
    var a, b := TrimCuts(s);
    assert Blank(s) <==> a == b;
  }

  function LowerChar(c: char): char {
    if 'A' <= c <= 'Z' then (c as int + 32) as char else c
  }

  function Lower(s: string): string {
    if s == [] then [] else [LowerChar(s[0])] + Lower(s[1..])
  }

  /** Lower-casing changes the letters A to Z and nothing else. */
  lemma {:induction false} LowerAt(s: string, i: nat)
    requires i < |s|
    ensures |Lower(s)| == |s|
    ensures Lower(s)[i] == if 'A' <= s[i] <= 'Z' then (s[i] as int - 'A' as int + 'a' as int) as char else s[i]
  {
    if i > 0 {
      LowerAt(s[1..], i - 1);
    } else if |s| > 1 {
      LowerAt(s[1..], 0);
    }
  }

  /** A trimmed identifier; a blank one counts as absent. */
  function NormalId(value: Option<string>): Option<string> {
    if value.Some? && !Blank(value.value) then Some(Trim(value.value)) else None
  }

  /** A trimmed, lower-cased e-mail address; a blank one counts as absent. */
  function NormalEmail(value: Option<string>): Option<string> {
    if value.Some? && !Blank(value.value) then Some(Lower(Trim(value.value))) else None
  }

  // Identity over the fields themselves, for statements.

  predicate Known(value: Option<string>) {
    value.Some? && !Blank(value.value)
  }

  /** Both are known, and equal but for white space around them. */
  predicate SameKnown(a: Option<string>, b: Option<string>) {
    Known(a) && Known(b) && Trim(a.value) == Trim(b.value)
  }

  /** Both e-mail addresses are known, and equal but for white space around them and the case of letters. */
  predicate SameMail(a: Option<string>, b: Option<string>) {
    Known(a) && Known(b) && Lower(Trim(a.value)) == Lower(Trim(b.value))
  }

  /** Map lookup as an optional value. */
  function Get<K, V>(m: map<K, V>, k: K): Option<V> {
    if k in m then Some(m[k]) else None
  }

  /** Every entry of `m` is an entry of `n`. */
  ghost predicate SubMap<K(!new), V(!new)>(m: map<K, V>, n: map<K, V>) {
    forall k :: k in m ==> k in n && m[k] == n[k]
  }
}
