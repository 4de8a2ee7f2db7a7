/** Redaction of registered secrets from log lines (observability/tracing.rs). */
module Scrub {

  const PLACEHOLDER: string := "[REDACTED]"

  predicate OccursAt(text: string, x: string, i: int) {
    0 <= i <= |text| - |x| && text[i..i + |x|] == x
  }

  predicate Contains(text: string, x: string) {
    exists i | 0 <= i <= |text| :: OccursAt(text, x, i)
  }

  /** Leftmost, non-overlapping replacement of every occurrence of s. */
  function Replace(text: string, s: string): string
    requires s != []
  {
    if |text| < |s| then text
    else if s <= text then PLACEHOLDER + Replace(text[|s|..], s)
    else [text[0]] + Replace(text[1..], s)
  }

  /** The text after the first n secrets have been replaced, one after the other. */
  function Scrubbed(text: string, secrets: seq<string>, n: nat): string
    requires n <= |secrets|
  {
    if n == 0 then text
    else
      var out := Scrubbed(text, secrets, n - 1);
      var s := secrets[n - 1];
      if s != [] && Contains(out, s) then Replace(out, s) else out
  }

  predicate BracketFree(x: string) { '[' !in x && ']' !in x }

  predicate Redactable(x: string) { x != [] && BracketFree(x) && !Contains(PLACEHOLDER, x) }

  /** The pieces with a separator between each two. */
  function Join(pieces: seq<string>, separator: string): string
    requires pieces != []
  {
    if |pieces| == 1 then pieces[0] else pieces[0] + separator + Join(pieces[1..], separator)
  }

  /** Replacing swaps separators: the text is its pieces joined by s, none of which contains s, and the result is the
      same pieces joined by the placeholder. Nothing else is added, lost or moved. */
  lemma {:induction false} ReplaceSwapsSeparators(text: string, s: string) returns (pieces: seq<string>)
    requires s != []
    ensures pieces != [] && (forall p | p in pieces :: !Contains(p, s))
    ensures text == Join(pieces, s) && Replace(text, s) == Join(pieces, PLACEHOLDER)
    decreases |text|
  {
    if |text| < |s| {
      pieces := [text];
    } else if s <= text {
      var rest := ReplaceSwapsSeparators(text[|s|..], s);
      pieces := [""] + rest;
      JoinEmptyFirst(rest, s);
      JoinEmptyFirst(rest, PLACEHOLDER);
    } else {
      var rest := ReplaceSwapsSeparators(text[1..], s);
      pieces := Lengthened(text[0], rest);
      JoinLengthened(text[0], rest, s);
      JoinLengthened(text[0], rest, PLACEHOLDER);
      assert text == [text[0]] + text[1..];
      StillWithout(text, s, rest);
    }
  }

  function Lengthened(c: char, pieces: seq<string>): seq<string>
    requires pieces != []
  {
    [[c] + pieces[0]] + pieces[1..]
  }

  lemma JoinLengthened(c: char, pieces: seq<string>, separator: string)
    requires pieces != []
    ensures Join(Lengthened(c, pieces), separator) == [c] + Join(pieces, separator)
  {
    assert Lengthened(c, pieces)[1..] == pieces[1..];
  }

  lemma JoinEmptyFirst(pieces: seq<string>, separator: string)
    requires pieces != []
    ensures Join([""] + pieces, separator) == separator + Join(pieces, separator)
  {
    assert ([""] + pieces)[1..] == pieces;
  }

  lemma StillWithout(text: string, s: string, rest: seq<string>)
    requires text != [] && rest != [] && !(s <= text) && (forall p | p in rest :: !Contains(p, s))
    requires s != [] && text[1..] == Join(rest, s)
    ensures forall p | p in Lengthened(text[0], rest) :: !Contains(p, s)
  {
    var first := [text[0]] + rest[0];
    assert first <= text;
    assert rest[0] in rest;
    assert !OccursAt(first, s, 0) by {
      assert first[0..0 + |first|] <= text;
      assert |s| <= |first| ==> first[0..|s|] == text[..|s|];
    }
    forall i | 0 < i <= |first| ensures !OccursAt(first, s, i) {
      assert i + |s| <= |first| ==> first[i..i + |s|] == rest[0][i - 1..i - 1 + |s|];
      assert !OccursAt(rest[0], s, i - 1);
    }
    assert !Contains(first, s);
    forall p | p in Lengthened(text[0], rest) ensures !Contains(p, s) {
      assert p == first || p in rest;
    }
  }

  // ---- Where a bracket-free string can occur after one replacement ----

  lemma {:induction false} PrefixWasThere(text: string, s: string, y: string)
    requires s != [] && BracketFree(y) && y <= Replace(text, s)
    ensures y <= text
    decreases |text|
  {
    if y != [] && |text| >= |s| {
      assert y[0] in y && y[0] != '[';
      assert Replace(text, s)[0] == y[0];
      assert !(s <= text);
      assert y[1..] <= Replace(text[1..], s);
      PrefixWasThere(text[1..], s, y[1..]);
      assert text == [text[0]] + text[1..] && y == [y[0]] + y[1..];
    }
  }

  /** An occurrence in the replaced text was one in the text before; of another string than s. */
  lemma {:induction false} OccurrenceWasThere(text: string, s: string, x: string, i: int)
    requires s != [] && Redactable(x) && OccursAt(Replace(text, s), x, i)
    ensures x != s && Contains(text, x)
    decreases |text|
  {
    var out := Replace(text, s);
    if |text| < |s| {
      assert OccursAt(text, x, i);
    } else if s <= text {
      var rest := text[|s|..];
      assert out == PLACEHOLDER + Replace(rest, s);
      NotAcross(Replace(rest, s), x, i);
      assert OccursAt(Replace(rest, s), x, i - |PLACEHOLDER|);
      OccurrenceWasThere(rest, s, x, i - |PLACEHOLDER|);
      Later(text, |s|, x);
    } else if i == 0 {
      assert x <= out;
      PrefixWasThere(text, s, x);
      assert OccursAt(text, x, 0);
    } else {
      assert out[i..i + |x|] == Replace(text[1..], s)[i - 1..i - 1 + |x|];
      assert OccursAt(Replace(text[1..], s), x, i - 1);
      OccurrenceWasThere(text[1..], s, x, i - 1);
      Later(text, 1, x);
    }
  }

  /** A redactable string cannot begin inside a placeholder. */
  lemma NotAcross(rest: string, x: string, i: int)
    requires Redactable(x) && OccursAt(PLACEHOLDER + rest, x, i)
    ensures i >= |PLACEHOLDER|
    ensures OccursAt(rest, x, i - |PLACEHOLDER|)
  {
    var m := PLACEHOLDER;
    var out := m + rest;
    assert out[i..i + |x|] == x;
    assert i + |x| <= |m| ==> OccursAt(m, x, i) by {
      if i + |x| <= |m| {
        assert m[i..i + |x|] == out[i..i + |x|];
      }
    }
    CharAt(out, x, i, |m| - 1 - i);
    assert i >= |m| ==> rest[i - |m|..i - |m| + |x|] == out[i..i + |x|];
  }

  lemma CharAt(text: string, x: string, i: int, j: int)
    requires OccursAt(text, x, i)
    ensures 0 <= j < |x| ==> text[i + j] == x[j] && x[j] in x
  {
  }

  lemma SliceOfSlice(text: string, a: nat, b: nat, c: nat, d: nat)
    requires a <= b <= |text| && c <= d <= b - a
    ensures text[a..b][c..d] == text[a + c..a + d]
  {
    var p, q := text[a..b][c..d], text[a + c..a + d];
    assert |p| == |q|;
    assert forall k | 0 <= k < |p| :: p[k] == text[a + c + k] == q[k];
  }

  lemma Later(text: string, k: nat, x: string)
    requires k <= |text| && Contains(text[k..], x)
    ensures Contains(text, x)
  {
    var i :| 0 <= i <= |text[k..]| && OccursAt(text[k..], x, i);
    assert text[k..][i..i + |x|] == text[k + i..k + i + |x|];
    assert OccursAt(text, x, k + i);
  }

  // ---- The sequential scrub ----

  /** No registered string is left, in whatever order they were registered. */
  lemma {:induction false} ScrubComplete(text: string, secrets: seq<string>, n: nat, k: nat)
    requires k < n <= |secrets| && (forall s | s in secrets :: Redactable(s))
    ensures !Contains(Scrubbed(text, secrets, n), secrets[k])
  {
    var before, s := Scrubbed(text, secrets, n - 1), secrets[n - 1];
    assert s in secrets && secrets[k] in secrets;
    if k < n - 1 {
      ScrubComplete(text, secrets, n - 1, k);
    }
    forall i | OccursAt(Replace(before, s), secrets[k], i) ensures secrets[k] != s && Contains(before, secrets[k]) {
      OccurrenceWasThere(before, s, secrets[k], i);
    }
  }

  lemma {:induction false} UntouchedWithout(text: string, secrets: seq<string>, n: nat)
    requires n <= |secrets| && forall k | 0 <= k < n :: !Contains(text, secrets[k])
    ensures Scrubbed(text, secrets, n) == text
  {
    if n > 0 {
      UntouchedWithout(text, secrets, n - 1);
    }
  }

  /** Scrubbing a scrubbed text, even with the secrets in another order, changes nothing. */
  lemma ScrubIdempotent(text: string, secrets: seq<string>, again: seq<string>)
    requires forall s | s in secrets :: Redactable(s)
    requires forall s | s in again :: s in secrets
    ensures var once := Scrubbed(text, secrets, |secrets|); Scrubbed(once, again, |again|) == once
  {
    var once := Scrubbed(text, secrets, |secrets|);
    forall k | 0 <= k < |again| ensures !Contains(once, again[k]) {
      assert again[k] in secrets;
      var j :| 0 <= j < |secrets| && secrets[j] == again[k];
      ScrubComplete(text, secrets, |secrets|, j);
    }
    UntouchedWithout(once, again, |again|);
  }

  // ---- When it is not complete ----

  lemma {:induction false} ReplacedHasPlaceholder(text: string, s: string, i: int)
    requires s != [] && OccursAt(text, s, i)
    ensures Contains(Replace(text, s), PLACEHOLDER)
    decreases |text|
  {
    if s <= text {
      assert OccursAt(Replace(text, s), PLACEHOLDER, 0);
    } else {
      assert text[0..|s|] == text[..|s|];
      SliceOfSlice(text, 1, |text|, i - 1, i - 1 + |s|);
      ReplacedHasPlaceholder(text[1..], s, i - 1);
      assert Replace(text, s)[1..] == Replace(text[1..], s);
      Later(Replace(text, s), 1, PLACEHOLDER);
    }
  }

  lemma {:induction false} PlaceholderStays(secrets: seq<string>, n: nat)
    requires n <= |secrets|
    ensures Contains(Scrubbed(PLACEHOLDER, secrets, n), PLACEHOLDER)
  {
    if n == 0 {
      assert OccursAt(PLACEHOLDER, PLACEHOLDER, 0);
    } else {
      PlaceholderStays(secrets, n - 1);
      var out, s := Scrubbed(PLACEHOLDER, secrets, n - 1), secrets[n - 1];
      if s != [] && Contains(out, s) {
        var i :| 0 <= i <= |out| && OccursAt(out, s, i);
        ReplacedHasPlaceholder(out, s, i);
      }
    }
  }

  lemma ContainsTransitive(text: string, x: string, y: string)
    requires Contains(text, x) && Contains(x, y)
    ensures Contains(text, y)
  {
    var i :| 0 <= i <= |text| && OccursAt(text, x, i);
    var j :| 0 <= j <= |x| && OccursAt(x, y, j);
    SliceOfSlice(text, i, i + |x|, j, j + |y|);
    assert OccursAt(text, y, i + j);
  }

  ghost predicate Complete(secrets: seq<string>) {
    forall text, k | 0 <= k < |secrets| :: !Contains(Scrubbed(text, secrets, |secrets|), secrets[k])
  }

  /** For secrets without brackets the scrub is complete on every text exactly when none of them is part of the
      placeholder itself. */
  lemma ScrubCompleteExactly(secrets: seq<string>)
    requires forall s | s in secrets :: s != [] && BracketFree(s)
    ensures Complete(secrets) <==> forall s | s in secrets :: !Contains(PLACEHOLDER, s)
  {
    if forall s | s in secrets :: !Contains(PLACEHOLDER, s) {
      forall text, k | 0 <= k < |secrets| ensures !Contains(Scrubbed(text, secrets, |secrets|), secrets[k]) {
        ScrubComplete(text, secrets, |secrets|, k);
      }
    } else {
      var s :| s in secrets && Contains(PLACEHOLDER, s);
      var k :| 0 <= k < |secrets| && secrets[k] == s;
      PlaceholderStays(secrets, |secrets|);
      ContainsTransitive(Scrubbed(PLACEHOLDER, secrets, |secrets|), PLACEHOLDER, s);
    }
  }

  lemma NeedsItsFirst(text: string, x: string)
    requires x != [] && x[0] !in text
    ensures !Contains(text, x)
  {
    forall i | OccursAt(text, x, i) ensures false {
      CharAt(text, x, i, 0);
    }
  }

  lemma {:induction false} ReplaceAbsent(text: string, s: string)
    requires s != [] && s[0] !in text
    ensures Replace(text, s) == text
    decreases |text|
  {
    if |text| >= |s| {
      assert text[0] in text && text[0] != s[0];
      ReplaceAbsent(text[1..], s);
      assert text == [text[0]] + text[1..];
    }
  }

  lemma ReplaceFirst(text: string, s: string)
    requires s != [] && s <= text && s[0] !in text[|s|..]
    ensures Replace(text, s) == PLACEHOLDER + text[|s|..]
  {
    ReplaceAbsent(text[|s|..], s);
  }

  lemma ReplaceAfterOne(x: char, s: string)
    requires s != [] && x != s[0]
    ensures Replace([x] + s, s) == [x] + PLACEHOLDER && Contains([x] + s, s)
  {
    var text := [x] + s;
    assert text[0] == x && text[1..] == s && s[|s|..] == [];
    ReplaceFirst(s, s);
    assert OccursAt(text, s, 1);
  }

  /** With brackets, completeness depends on the order of registration: the placeholder put in for a secret b completes
      the secret x[ that was looked for before. On the text xab, the secrets x[ and ab are such a pair. */
  lemma BracketsMakeOrderMatter(x: char, b: string)
    requires b != [] && x !in b && x !in PLACEHOLDER && b[0] !in PLACEHOLDER
    ensures Contains(Scrubbed([x] + b, [[x, '['], b], 2), [x, '['])
    ensures var out := Scrubbed([x] + b, [b, [x, '[']], 2); !Contains(out, b) && !Contains(out, [x, '['])
  {
    var text, s := [x] + b, [x, '['];
    assert b[0] in b && PLACEHOLDER[0] == '[';
    ReplaceAfterOne(x, b);
    var once := [x] + PLACEHOLDER;
    LookedForTooEarly(text, s, b, once);
    LookedForLater(text, s, b, once);
  }

  lemma LookedForTooEarly(text: string, s: string, b: string, once: string)
    requires |s| == 2 && b != [] && s[0] !in b && b[0] != s[1] && text == [s[0]] + b
    requires Contains(text, b) && Replace(text, b) == once && s <= once
    ensures Contains(Scrubbed(text, [s, b], 2), s)
  {
    forall i | OccursAt(text, s, i) ensures false {
      CharAt(text, s, i, 0);
      CharAt(text, s, i, 1);
    }
    assert Scrubbed(text, [s, b], 0) == text && Scrubbed(text, [s, b], 1) == text;
    assert OccursAt(once, s, 0);
  }

  lemma LookedForLater(text: string, s: string, b: string, once: string)
    requires |s| == 2 && b != [] && s[0] !in PLACEHOLDER && b[0] !in PLACEHOLDER && once == [s[0]] + PLACEHOLDER && s <= once
    requires Contains(text, b) && Replace(text, b) == once
    ensures var out := Scrubbed(text, [b, s], 2); !Contains(out, b) && !Contains(out, s)
  {
    assert Scrubbed(text, [b, s], 0) == text && Scrubbed(text, [b, s], 1) == once;
    assert OccursAt(once, s, 0);
    assert once[2..] == PLACEHOLDER[1..];
    ReplaceFirst(once, s);
    var out := PLACEHOLDER + PLACEHOLDER[1..];
    assert Scrubbed(text, [b, s], 2) == out;
    NeedsItsFirst(out, b);
    NeedsItsFirst(out, s);
  }

  /** The loop of the source. */
  method ScrubText(text: string, secrets: seq<string>) returns (out: string)
    ensures out == Scrubbed(text, secrets, |secrets|)
    ensures forall k | 0 <= k < |secrets| && (forall s | s in secrets :: Redactable(s)) :: !Contains(out, secrets[k])
  {
    out := text;
    for n := 0 to |secrets|
      invariant out == Scrubbed(text, secrets, n)
    {
      if secrets[n] != [] && Contains(out, secrets[n]) {
        out := Replace(out, secrets[n]);
      }
    }
    forall k | 0 <= k < |secrets| && (forall s | s in secrets :: Redactable(s)) ensures !Contains(out, secrets[k]) {
      ScrubComplete(text, secrets, |secrets|, k);
    }
  }

  class RedactionRegistry {
    var secrets: seq<string>
    var len: nat

    /** The counter that the writer reads without the lock is the length of the list. */
    ghost predicate Valid() reads this {
      && len == |secrets|
      && (forall k | 0 <= k < |secrets| :: secrets[k] != [])
      && (forall j, k | 0 <= j < k < |secrets| :: secrets[j] != secrets[k])
    }

    constructor ()
      ensures Valid() && secrets == []
    {
      secrets, len := [], 0;
    }

    method Register(secret: string)
      requires Valid()
      modifies this
      ensures Valid()
      ensures secrets == if secret == [] || secret in old(secrets) then old(secrets) else old(secrets) + [secret]
    {
      if secret == [] {
        return;
      }
      if secret !in secrets {
        secrets := secrets + [secret];
        len := len + 1;
      }
    }

    /** What reaches stderr. Skipping the scrub when the counter is zero makes no difference. */
    method Write(text: string) returns (out: string)
      requires Valid()
      ensures out == Scrubbed(text, secrets, |secrets|)
      ensures forall s | s in secrets && (forall x | x in secrets :: Redactable(x)) :: !Contains(out, s)
    {
      if len == 0 {
        return text;
      }
      out := ScrubText(text, secrets);
      assert forall s | s in secrets :: exists k :: 0 <= k < |secrets| && secrets[k] == s;
    }
  }
}
