/** The JavaScript string operations the obfuscator relies on, stated over
    `seq<char>`: `indexOf`, `replace` with a string pattern, one-argument
    `substr`, `split(' ')[0]`, and the space-separated lists it builds. */
module Text {
  import opened Wrappers

  /** True when `key` occurs in `s` starting at index `i`. */
  predicate OccursAt(s: string, key: string, i: nat) {
    i + |key| <= |s| && s[i..i + |key|] == key
  }

  /** The least index at or after `from` where `key` occurs. */
  function IndexFrom(s: string, key: string, from: nat): (r: Option<nat>)
    requires from <= |s|
    ensures r.Some? ==> from <= r.value && OccursAt(s, key, r.value)
    ensures forall j: nat :: from <= j && (r.None? || j < r.value) ==> !OccursAt(s, key, j)
    decreases |s| - from
  {
    if OccursAt(s, key, from) then Some(from)
    else if from == |s| then None
    else IndexFrom(s, key, from + 1)
  }

  /** `s.indexOf(key)`: the first occurrence of `key`; None where JavaScript gives -1. */
  function IndexOf(s: string, key: string): (r: Option<nat>)
    ensures r.Some? ==> OccursAt(s, key, r.value)
    ensures forall j: nat :: (r.None? || j < r.value) ==> !OccursAt(s, key, j)
  {
    IndexFrom(s, key, 0)
  }

  /** `s.indexOf(key) != -1`. */
  function Contains(s: string, key: string): (b: bool)
    ensures b <==> exists j: nat :: OccursAt(s, key, j)
  {
    IndexOf(s, key).Some?
  }

  /** The first occurrence is determined by the occurrences: it is the least one. */
  lemma IndexOfIsLeast(s: string, key: string, i: nat)
    requires OccursAt(s, key, i)
    requires forall j: nat :: j < i ==> !OccursAt(s, key, j)
    ensures IndexOf(s, key) == Some(i)
  {
  }

  /** `s.replace(key, name)` where `key` is a string (so only its first
      occurrence is replaced) and `name` holds no `$` replacement pattern. */
  function ReplaceFirst(s: string, key: string, name: string): (t: string)
    ensures !Contains(s, key) ==> t == s
  {
    match IndexOf(s, key)
    case None => s
    case Some(i) => s[..i] + name + s[i + |key|..]
  }

  /** Replacing the first occurrence keeps everything before it and everything
      after it: whenever `s` is `front + key + back` and `key` does not occur
      earlier, the result is `front + name + back`. */
  lemma ReplaceFirstAt(s: string, key: string, name: string, front: string, back: string)
    requires s == front + key + back
    requires forall j: nat :: j < |front| ==> !OccursAt(s, key, j)
    ensures Contains(s, key)
    ensures ReplaceFirst(s, key, name) == front + name + back
  {
    assert s[|front|..|front| + |key|] == key;
    IndexOfIsLeast(s, key, |front|);
    assert s[..|front|] == front;
    assert s[|front| + |key|..] == back;
  }

  /** A key whose character at position `m` appears nowhere in `s` cannot occur in `s`. */
  lemma MissingCharacterRulesOut(s: string, key: string, m: nat)
    requires m < |key| && key[m] !in s
    ensures !Contains(s, key)
  {
  }

  /** No occurrence of a space-free key starts inside a prefix that ends in a
      space and holds no occurrence of its own. */
  lemma NoOccurrenceInPrefix(p: string, s: string, key: string, j: nat)
    requires |p| > 0 && p[|p| - 1] == ' '
    requires ' ' !in key
    requires !Contains(p, key)
    requires j < |p|
    ensures !OccursAt(p + s, key, j)
  {
    var ps := p + s;
    if j + |key| <= |p| {
      assert ps[j..j + |key|] == p[j..j + |key|];
      assert !OccursAt(p, key, j);
    } else if j + |key| <= |ps| {
      assert ps[j..j + |key|][|p| - 1 - j] == ' ';
    }
  }

  /** An occurrence behind the prefix is an occurrence in the rest, shifted. */
  lemma OccurrenceBehindPrefix(p: string, s: string, key: string, j: nat)
    ensures OccursAt(p + s, key, |p| + j) <==> OccursAt(s, key, j)
  {
    if |p| + j + |key| <= |p + s| {
      assert (p + s)[|p| + j..|p| + j + |key|] == s[j..j + |key|];
    }
  }

  /** Behind a prefix that ends in a space and holds no occurrence of a
      space-free key, the key occurs at `|p| + j` exactly when it occurs in
      the rest at `j`, and nowhere inside the prefix. */
  lemma OccurrencesBehindPrefix(p: string, s: string, key: string)
    requires |p| > 0 && p[|p| - 1] == ' '
    requires ' ' !in key
    requires !Contains(p, key)
    ensures forall j: nat :: j < |p| ==> !OccursAt(p + s, key, j)
    ensures forall j: nat :: OccursAt(p + s, key, |p| + j) <==> OccursAt(s, key, j)
  {
    forall j: nat | j < |p| ensures !OccursAt(p + s, key, j) {
      NoOccurrenceInPrefix(p, s, key, j);
    }
    forall j: nat ensures OccursAt(p + s, key, |p| + j) <==> OccursAt(s, key, j) {
      OccurrenceBehindPrefix(p, s, key, j);
    }
  }

  /** Behind such a prefix, the first occurrence of the key is the first
      occurrence in the rest, shifted by the prefix. */
  lemma IndexOfBehindPrefix(p: string, s: string, key: string)
    requires |p| > 0 && p[|p| - 1] == ' '
    requires ' ' !in key
    requires !Contains(p, key)
    ensures IndexOf(p + s, key) == match IndexOf(s, key)
                                   case None => None
                                   case Some(i) => Some(|p| + i)
  {
    OccurrencesBehindPrefix(p, s, key);
    var r := IndexOf(s, key);
    var bound := if r.None? then |p + s| + 1 else |p| + r.value;
    forall j: nat | |p| <= j < bound ensures !OccursAt(p + s, key, j) {
      assert OccursAt(p + s, key, |p| + (j - |p|)) <==> OccursAt(s, key, j - |p|);
    }
    if r.Some? {
      assert OccursAt(p + s, key, |p| + r.value);
      IndexOfIsLeast(p + s, key, |p| + r.value);
    }
  }

  /** Replacing at a known first occurrence. */
  lemma ReplaceAtIndex(s: string, key: string, name: string, i: nat)
    requires IndexOf(s, key) == Some(i)
    ensures ReplaceFirst(s, key, name) == s[..i] + name + s[i + |key|..]
  {
  }

  /** Splicing behind a prefix is splicing the rest. */
  lemma SpliceBehindPrefix(p: string, s: string, name: string, i: nat, n: nat)
    requires i + n <= |s|
    ensures (p + s)[..|p| + i] + name + (p + s)[|p| + i + n..] == p + (s[..i] + name + s[i + n..])
  {
    assert (p + s)[..|p| + i] == p + s[..i];
    assert (p + s)[|p| + i + n..] == s[i + n..];
  }

  /** Behind such a prefix, a key found in the rest at `i` is first found at `|p| + i`. */
  lemma IndexOfHitBehindPrefix(p: string, s: string, key: string, i: nat)
    requires |p| > 0 && p[|p| - 1] == ' '
    requires ' ' !in key
    requires !Contains(p, key)
    requires IndexOf(s, key) == Some(i)
    ensures IndexOf(p + s, key) == Some(|p| + i) && i + |key| <= |s|
  {
    IndexOfBehindPrefix(p, s, key);
  }

  /** Behind such a prefix, a key found in the rest is replaced there. */
  lemma ReplaceHitBehindPrefix(p: string, s: string, key: string, name: string, i: nat)
    requires |p| > 0 && p[|p| - 1] == ' '
    requires ' ' !in key
    requires !Contains(p, key)
    requires IndexOf(s, key) == Some(i)
    ensures ReplaceFirst(p + s, key, name) == p + (s[..i] + name + s[i + |key|..])
  {
    IndexOfHitBehindPrefix(p, s, key, i);
    ReplaceAtIndex(p + s, key, name, |p| + i);
    SpliceBehindPrefix(p, s, name, i, |key|);
  }

  /** Behind such a prefix, replacing the first occurrence of the key only
      rewrites the rest of the string. */
  lemma ReplaceBehindPrefix(p: string, s: string, key: string, name: string)
    requires |p| > 0 && p[|p| - 1] == ' '
    requires ' ' !in key
    requires !Contains(p, key)
    ensures Contains(p + s, key) == Contains(s, key)
    ensures ReplaceFirst(p + s, key, name) == p + ReplaceFirst(s, key, name)
  {
    IndexOfBehindPrefix(p, s, key);
    match IndexOf(s, key)
    case None =>
      assert !Contains(s, key) && !Contains(p + s, key);
    case Some(i) =>
      assert Contains(s, key) && Contains(p + s, key);
      ReplaceHitBehindPrefix(p, s, key, name, i);
      assert ReplaceFirst(s, key, name) == s[..i] + name + s[i + |key|..];
  }

  /** `s.substr(start)` for a non-negative start: the suffix from `start` on,
      empty once `start` passes the end. */
  function Substr(s: string, start: nat): (t: string)
    ensures |t| == if start <= |s| then |s| - start else 0
    ensures t == s[|s| - |t|..]
  {
    if start <= |s| then s[start..] else ""
  }

  /** `s.split(' ')[0]`: everything before the first space. */
  function FirstField(s: string): (w: string)
    ensures w <= s && ' ' !in w
    ensures |w| < |s| ==> s[|w|] == ' '
  {
    if s == [] || s[0] == ' ' then "" else [s[0]] + FirstField(s[1..])
  }

  /** The words separated by single spaces, with no space before or after. */
  function Join(words: seq<string>): string
  {
    if |words| == 0 then ""
    else if |words| == 1 then words[0]
    else Join(words[..|words| - 1]) + " " + words[|words| - 1]
  }

  /** What `acc += ' ' + word` leaves after a run over `words` from "": each word
      after a space. */
  function SpaceLed(words: seq<string>): string
  {
    if words == [] then "" else SpaceLed(words[..|words| - 1]) + " " + words[|words| - 1]
  }

  /** Dropping the first character of the space-led accumulation (`substr(1)`)
      gives exactly the space-joined words, and an empty one stays empty. */
  lemma {:induction false} TrimmedSpaceLedIsJoin(words: seq<string>)
    ensures Substr(SpaceLed(words), 1) == Join(words)
    ensures words != [] ==> SpaceLed(words) == " " + Join(words)
  {
    if |words| == 1 {
      assert words[..0] == [];
    } else if |words| > 1 {
      TrimmedSpaceLedIsJoin(words[..|words| - 1]);
    }
  }
}
