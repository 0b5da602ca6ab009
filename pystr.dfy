/**
 * The three Python string builtins the entity finder relies on, stated
 * directly: `s.find(sub, start)`, `s.split()` with no separator, and
 * `' '.join(words)`.
 */
module PyStr {

  /** The characters for which Python's `str.isspace()` holds; `split()` cuts on runs of them. */
  predicate IsSpace(c: char) {
    ('\t' <= c <= '\r') || ('\U{1C}' <= c <= '\U{1F}') || c == ' ' ||
    c == '\U{85}' || c == '\U{A0}' || c == '\U{1680}' ||
    ('\U{2000}' <= c <= '\U{200A}') || c == '\U{2028}' || c == '\U{2029}' ||
    c == '\U{202F}' || c == '\U{205F}' || c == '\U{3000}'
  }

  predicate NoSpace(w: string) {
    forall i :: 0 <= i < |w| ==> !IsSpace(w[i])
  }

  /** `sub` occurs in `s` starting at offset `i`. */
  predicate OccursAt(s: string, sub: string, i: nat) {
    i + |sub| <= |s| && s[i..i + |sub|] == sub
  }

  /**
   * `s.find(sub, from)` for a non-negative `from`: the least offset at or
   * after `from` where `sub` occurs, or -1 when there is none (also when
   * `from` lies past the end of `s`).
   */
  function Find(s: string, sub: string, from: nat): (r: int)
    ensures r == -1 || from <= r <= |s| - |sub|
    decreases |s| - from
  {
    if from + |sub| > |s| then -1
    else if s[from..from + |sub|] == sub then from
    else Find(s, sub, from + 1)
  }

  /** A result other than -1 is an occurrence. */
  lemma {:induction false} FindOccurrence(s: string, sub: string, from: nat)
    ensures Find(s, sub, from) != -1 ==> OccursAt(s, sub, Find(s, sub, from))
    decreases |s| - from
  {
    if from + |sub| <= |s| && s[from..from + |sub|] != sub {
      FindOccurrence(s, sub, from + 1);
    }
  }

  /** `find` answers the least occurrence at or after `from`, and -1 exactly when there is none. */
  lemma {:induction false} FindIsLeast(s: string, sub: string, from: nat)
    ensures Find(s, sub, from) != -1 ==> forall i :: from <= i < Find(s, sub, from) ==> !OccursAt(s, sub, i)
    ensures Find(s, sub, from) == -1 <==> forall i :: from <= i ==> !OccursAt(s, sub, i)
    decreases |s| - from
  {
    if from + |sub| > |s| {
      assert forall i :: from <= i ==> !OccursAt(s, sub, i);
    } else if s[from..from + |sub|] == sub {
      assert OccursAt(s, sub, from);
    } else {
      FindIsLeast(s, sub, from + 1);
      FindOccurrence(s, sub, from + 1);
      assert !OccursAt(s, sub, from);
    }
  }

  /**
   * The offset both the generator and the annotator use for a match: the
   * result of `find`, with the "not found" value -1 replaced by 0.
   */
  function Locate(s: string, sub: string, from: nat): nat {
    var i := Find(s, sub, from);
    if i == -1 then 0 else i
  }

  /** Length of the run of non-space characters at the front of `s`. */
  function WordLen(s: string): (n: nat)
    ensures n <= |s|
    ensures forall i :: 0 <= i < n ==> !IsSpace(s[i])
    ensures n < |s| ==> IsSpace(s[n])
  {
    if s == [] || IsSpace(s[0]) then 0 else 1 + WordLen(s[1..])
  }

  /** `s.split()`: the maximal runs of non-space characters, left to right. */
  function Split(s: string): seq<string>
    decreases |s|
  {
    if s == [] then []
    else if IsSpace(s[0]) then Split(s[1..])
    else
      var n := WordLen(s);
      [s[..n]] + Split(s[n..])
  }

  /** Every token of `s.split()` is non-empty and holds no whitespace. */
  lemma {:induction false} SplitTokens(s: string)
    ensures forall k :: 0 <= k < |Split(s)| ==> Split(s)[k] != [] && NoSpace(Split(s)[k])
    decreases |s|
  {
    if s == [] {
    } else if IsSpace(s[0]) {
      SplitTokens(s[1..]);
    } else {
      var n := WordLen(s);
      SplitTokens(s[n..]);
      assert Split(s) == [s[..n]] + Split(s[n..]);
    }
  }

  /** `' '.join(ws)`. */
  function Join(ws: seq<string>): string {
    if ws == [] then ""
    else if |ws| == 1 then ws[0]
    else ws[0] + " " + Join(ws[1..])
  }

  /** The words of `ws` glued together with nothing between them. */
  function Concat(ws: seq<string>): string {
    if ws == [] then "" else ws[0] + Concat(ws[1..])
  }

  /** `s` with every whitespace character deleted. */
  function RemoveSpaces(s: string): string {
    if s == [] then ""
    else (if IsSpace(s[0]) then "" else [s[0]]) + RemoveSpaces(s[1..])
  }

  lemma {:induction false} RemoveSpacesWord(s: string, k: nat)
    requires k <= WordLen(s)
    ensures RemoveSpaces(s) == s[..k] + RemoveSpaces(s[k..])
  {
    if k > 0 {
      RemoveSpacesWord(s[1..], k - 1);
      assert s[1..][..k - 1] == s[1..k];
      assert s[1..][k - 1..] == s[k..];
      assert s[..k] == [s[0]] + s[1..k];
    }
  }

  /** Splitting loses only the whitespace: the tokens, put back together, are `s` without its spaces. */
  lemma {:induction false} SplitKeepsNonSpace(s: string)
    ensures Concat(Split(s)) == RemoveSpaces(s)
    decreases |s|
  {
    if s == [] {
    } else if IsSpace(s[0]) {
      SplitKeepsNonSpace(s[1..]);
    } else {
      var n := WordLen(s);
      SplitKeepsNonSpace(s[n..]);
      RemoveSpacesWord(s, n);
      assert Split(s) == [s[..n]] + Split(s[n..]);
      assert Split(s)[1..] == Split(s[n..]);
    }
  }

  lemma {:induction false} WordLenOfWord(w: string, t: string)
    requires NoSpace(w)
    requires t == [] || IsSpace(t[0])
    ensures WordLen(w + t) == |w|
  {
    if w != [] {
      assert (w + t)[1..] == w[1..] + t;
      WordLenOfWord(w[1..], t);
    }
  }

  /** `split` undoes `' '.join` on non-empty words without whitespace. */
  lemma {:induction false} SplitJoin(ws: seq<string>)
    requires forall k :: 0 <= k < |ws| ==> ws[k] != [] && NoSpace(ws[k])
    ensures Split(Join(ws)) == ws
  {
    if ws == [] {
    } else if |ws| == 1 {
      var w := ws[0];
      WordLenOfWord(w, "");
      assert w + "" == w;
      assert w[|w|..] == [];
    } else {
      var w, rest := ws[0], Join(ws[1..]);
      var s := w + " " + rest;
      assert s == w + (" " + rest);
      WordLenOfWord(w, " " + rest);
      assert s[..|w|] == w;
      assert s[|w|..] == " " + rest;
      assert (" " + rest)[1..] == rest;
      SplitJoin(ws[1..]);
      assert ws == [w] + ws[1..];
    }
  }
}
