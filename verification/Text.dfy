/** The string operations the decision gate uses. Lower-casing is a parameter wherever it matters. */
module Text {

  /** Unicode White_Space, what strings.TrimSpace removes. */
  predicate IsSpace(c: char) {
    || c in {' ', '\t', '\n', '\r', '\U{000B}', '\U{000C}', '\U{0085}', '\U{00A0}', '\U{1680}',
             '\U{2028}', '\U{2029}', '\U{202F}', '\U{205F}', '\U{3000}'}
    || '\U{2000}' <= c <= '\U{200A}'
  }

  function TrimLeft(s: string): string {
    if s != [] && IsSpace(s[0]) then TrimLeft(s[1..]) else s
  }

  function TrimRight(s: string): string {
    if s != [] && IsSpace(s[|s| - 1]) then TrimRight(s[..|s| - 1]) else s
  }

  function TrimSpace(s: string): string {
    TrimRight(TrimLeft(s))
  }

  /** No space at either end. */
  predicate Trimmed(s: string) {
    s == [] || (!IsSpace(s[0]) && !IsSpace(s[|s| - 1]))
  }

  lemma {:induction false} TrimLeftStarts(s: string)
    ensures TrimLeft(s) == [] || !IsSpace(TrimLeft(s)[0])
  {
    if s != [] && IsSpace(s[0]) {
      TrimLeftStarts(s[1..]);
    }
  }

  lemma {:induction false} TrimRightEnds(s: string)
    ensures TrimRight(s) <= s
    ensures TrimRight(s) == [] || !IsSpace(TrimRight(s)[|TrimRight(s)| - 1])
    ensures s != [] && !IsSpace(s[0]) ==> TrimRight(s) != []
  {
    if s != [] && IsSpace(s[|s| - 1]) {
      TrimRightEnds(s[..|s| - 1]);
    }
  }

  /** Trimming leaves exactly the trimmed strings alone, gives only such, and keeps a string that begins with
      a visible character non-empty. */
  lemma TrimSpaceLaws(s: string)
    ensures Trimmed(TrimSpace(s))
    ensures TrimSpace(s) == s <==> Trimmed(s)
    ensures TrimSpace(TrimSpace(s)) == TrimSpace(s)
    ensures s != [] && !IsSpace(s[0]) ==> TrimSpace(s) != []
  {
    TrimLeftStarts(s);
    TrimRightEnds(TrimLeft(s));
    TrimLeftStarts(TrimSpace(s));
    TrimRightEnds(TrimLeft(TrimSpace(s)));
  }

  predicate Contains(s: string, part: string) {
    part <= s || (s != [] && Contains(s[1..], part))
  }

  lemma {:induction false} ContainsInside(before: string, part: string, after: string)
    ensures Contains(before + part + after, part)
    decreases |before|
  {
    if before == [] {
      assert part <= before + part + after;
    } else {
      ContainsInside(before[1..], part, after);
      assert (before + part + after)[1..] == before[1..] + part + after;
    }
  }

  function Join(parts: seq<string>): string {
    if |parts| == 0 then "" else if |parts| == 1 then parts[0] else parts[0] + " " + Join(parts[1..])
  }
}
