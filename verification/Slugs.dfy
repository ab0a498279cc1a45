/** The slug under which a store is reached. */
module Slugs {
  import opened Text

  predicate SlugChar(c: char) { 'a' <= c <= 'z' || IsDigit(c) || c == '-' }

  predicate IsSlug(s: string) { s != [] && forall i :: 0 <= i < |s| ==> SlugChar(s[i]) }

  // Every run of white space becomes one hyphen.
  function Hyphenate(s: string): string {
    if s == [] then []
    else if !IsSpace(s[0]) then [s[0]] + Hyphenate(s[1..])
    else if |s| > 1 && IsSpace(s[1]) then Hyphenate(s[1..])
    else "-" + Hyphenate(s[1..])
  }

  function Keep(s: string): (r: string)
    ensures forall i :: 0 <= i < |r| ==> SlugChar(r[i])
  {
    if s == [] then [] else (if SlugChar(s[0]) then [s[0]] else []) + Keep(s[1..])
  }

  function DropHyphens(s: string): (r: string)
    ensures |r| <= |s| && forall i :: 0 <= i < |r| ==> r[i] in s
    ensures r != [] ==> r[0] != '-' && r[|r| - 1] != '-'
  {
    if s == [] then []
    else if s[0] == '-' then DropHyphens(s[1..])
    else if s[|s| - 1] == '-' then DropHyphens(s[..|s| - 1])
    else s
  }

  // The slug a business name asks for.
  function Base(name: string): (b: string)
    ensures IsSlug(b) && b[0] != '-' && b[|b| - 1] != '-'
  {
    var b := DropHyphens(Keep(Hyphenate(Lower(name))));
    if b == [] then "trader" else b
  }

  function Candidate(base: string, k: nat): string {
    if k == 0 then base else base + "-" + Decimal(k + 1)
  }

  lemma CandidatesDiffer(base: string, i: nat, j: nat)
    requires Candidate(base, i) == Candidate(base, j)
    ensures i == j
  {
    if i > 0 && j > 0 {
      var a, b := Candidate(base, i), Candidate(base, j);
      assert a[|base| + 1..] == Decimal(i + 1) && b[|base| + 1..] == Decimal(j + 1);
      DecimalInjective(i + 1, j + 1);
    }
  }

  lemma CandidateIsSlug(base: string, k: nat)
    requires IsSlug(base) && base[0] != '-' && base[|base| - 1] != '-'
    ensures var s := Candidate(base, k);
            IsSlug(s) && s[0] != '-' && s[|s| - 1] != '-'
  {
    var s := Candidate(base, k);
    if k > 0 {
      var d := Decimal(k + 1);
      forall i | 0 <= i < |s| ensures SlugChar(s[i]) {
        if i > |base| { assert s[i] == d[i - |base| - 1]; }
      }
      assert s[|s| - 1] == d[|d| - 1];
    }
  }

  lemma {:induction false} TriedCount(base: string, n: nat, taken: set<string>)
    requires forall k :: 0 <= k < n ==> Candidate(base, k) in taken
    ensures n <= |taken|
    decreases n
  {
    if n == 0 {
    } else {
      var last := Candidate(base, n - 1);
      forall k | 0 <= k < n - 1 ensures Candidate(base, k) in taken - {last} {
        if Candidate(base, k) == last { CandidatesDiffer(base, k, n - 1); }
      }
      TriedCount(base, n - 1, taken - {last});
    }
  }

  // The first free candidate, found within one probe more than there are slugs.
  method GenerateUniqueSlug(name: string, taken: set<string>) returns (slug: string, probes: nat)
    ensures 1 <= probes <= |taken| + 1
    ensures slug == Candidate(Base(name), probes - 1) && slug !in taken
    ensures forall k :: 0 <= k < probes - 1 ==> Candidate(Base(name), k) in taken
    ensures IsSlug(slug) && slug[0] != '-' && slug[|slug| - 1] != '-'
    ensures Base(name) !in taken ==> slug == Base(name)
    ensures Base(name) in taken ==>
              exists n: nat :: n >= 2 && slug == Base(name) + "-" + Decimal(n)
                            && forall m: nat :: 2 <= m < n ==> Base(name) + "-" + Decimal(m) in taken
  {
    var base := Base(name);
    slug := base;
    var counter := 2;
    probes := 1;
    while slug in taken
      invariant counter == probes + 1 && probes >= 1 && slug == Candidate(base, probes - 1)
      invariant forall k :: 0 <= k < probes - 1 ==> Candidate(base, k) in taken
      invariant probes <= |taken| + 1
      decreases |taken| - probes + 1
    {
      TriedCount(base, probes, taken);
      slug := base + "-" + Decimal(counter);
      counter := counter + 1;
      probes := probes + 1;
    }
    CandidateIsSlug(base, probes - 1);
    if base in taken {
      assert Candidate(base, 0) in taken && probes > 1;
      forall m: nat | 2 <= m < probes ensures base + "-" + Decimal(m) in taken {
        assert Candidate(base, m - 1) in taken;
      }
      assert slug == base + "-" + Decimal(probes);
    }
  }

  // A name of which nothing but hyphens is left gives "trader".
  lemma BaseOfNothing(name: string)
    requires forall c :: c in Lower(name) ==> !SlugChar(c) || c == '-'
    ensures Base(name) == "trader"
  {
    HyphensOnly(Lower(name));
    OnlyHyphensLeft(Hyphenate(Lower(name)));
    AllHyphensDrop(Keep(Hyphenate(Lower(name))));
  }

  lemma {:induction false} HyphensOnly(s: string)
    requires forall c :: c in s ==> !SlugChar(c) || c == '-'
    ensures forall c :: c in Hyphenate(s) ==> !SlugChar(c) || c == '-'
  {
    if s == [] {
    } else {
      HyphensOnly(s[1..]);
    }
  }

  lemma {:induction false} OnlyHyphensLeft(s: string)
    requires forall c :: c in s ==> !SlugChar(c) || c == '-'
    ensures forall c :: c in Keep(s) ==> c == '-'
  {
    if s == [] {
    } else {
      OnlyHyphensLeft(s[1..]);
    }
  }

  lemma {:induction false} AllHyphensDrop(s: string)
    requires forall c :: c in s ==> c == '-'
    ensures DropHyphens(s) == []
  {
    if s == [] {
    } else {
      assert s[0] in s && forall c :: c in s[1..] ==> c in s;
      AllHyphensDrop(s[1..]);
    }
  }

  // ---------------------------------------------------------------- slugs are their own base

  lemma {:induction false} HyphenateNone(s: string)
    requires forall i :: 0 <= i < |s| ==> !IsSpace(s[i])
    ensures Hyphenate(s) == s
  {
    if s == [] {
    } else {
      HyphenateNone(s[1..]);
    }
  }

  lemma {:induction false} KeepAll(s: string)
    requires forall i :: 0 <= i < |s| ==> SlugChar(s[i])
    ensures Keep(s) == s
  {
    if s == [] {
    } else {
      KeepAll(s[1..]);
    }
  }

  lemma BaseOfSlug(s: string)
    requires IsSlug(s) && s[0] != '-' && s[|s| - 1] != '-'
    ensures Base(s) == s
  {
    assert Lower(s) == s;
    HyphenateNone(s);
    KeepAll(s);
  }

  // ---------------------------------------------------------------- words

  // Anything without white space or hyphens of which something survives the filter.
  predicate Word(w: string) {
    && Keep(Lower(w)) != []
    && forall i :: 0 <= i < |w| ==> !IsSpace(w[i]) && w[i] != '-'
  }

  // Words with a gap after each but the last.
  function Joined(words: seq<string>, gaps: seq<string>): string
    requires |words| <= |gaps| + 1
  {
    if words == [] then []
    else if |words| == 1 then words[0]
    else words[0] + gaps[0] + Joined(words[1..], gaps[1..])
  }

  function Hyphened(words: seq<string>): string {
    if words == [] then []
    else if |words| == 1 then words[0]
    else words[0] + "-" + Hyphened(words[1..])
  }

  predicate Gaps(gaps: seq<string>) { forall i :: 0 <= i < |gaps| ==> gaps[i] != [] && AllSpace(gaps[i]) }

  predicate Words(words: seq<string>) { forall i :: 0 <= i < |words| ==> Word(words[i]) }

  lemma WordStarts(w: string)
    requires Word(w)
    ensures w != [] && !IsSpace(w[0])
  {
    assert w == [] ==> Lower(w) == [];
  }

  lemma JoinedStarts(words: seq<string>, gaps: seq<string>)
    requires words != [] && Words(words) && |words| <= |gaps| + 1
    ensures Joined(words, gaps) != [] && !IsSpace(Joined(words, gaps)[0])
  {
    WordStarts(words[0]);
  }

  lemma LowerAppend(a: string, b: string)
    ensures Lower(a + b) == Lower(a) + Lower(b)
  {
  }

  lemma {:induction false} HyphenateWord(w: string, rest: string)
    requires forall i :: 0 <= i < |w| ==> !IsSpace(w[i])
    ensures Hyphenate(w + rest) == w + Hyphenate(rest)
  {
    if w == [] {
      assert w + rest == rest;
    } else {
      assert (w + rest)[1..] == w[1..] + rest;
      HyphenateWord(w[1..], rest);
    }
  }

  lemma {:induction false} HyphenateGap(gap: string, rest: string)
    requires gap != [] && AllSpace(gap) && rest != [] && !IsSpace(rest[0])
    ensures Hyphenate(gap + rest) == "-" + Hyphenate(rest)
    decreases |gap|
  {
    assert (gap + rest)[1..] == gap[1..] + rest;
    if |gap| == 1 {
      assert gap[1..] + rest == rest;
    } else {
      HyphenateGap(gap[1..], rest);
    }
  }

  lemma HyphenateBoth(w: string, gap: string, rest: string)
    requires (forall i :: 0 <= i < |w| ==> !IsSpace(w[i])) && gap != [] && AllSpace(gap)
    requires rest != [] && !IsSpace(rest[0])
    ensures Hyphenate(w + gap + rest) == w + "-" + Hyphenate(rest)
  {
    assert w + gap + rest == w + (gap + rest);
    HyphenateWord(w, gap + rest);
    HyphenateGap(gap, rest);
    assert w + ("-" + Hyphenate(rest)) == w + "-" + Hyphenate(rest);
  }

  lemma LowerSpace(gap: string)
    requires AllSpace(gap)
    ensures Lower(gap) == gap
  {
  }

  lemma {:induction false} HyphenateWords(words: seq<string>, gaps: seq<string>)
    requires words != [] && Words(words) && |words| <= |gaps| + 1 && Gaps(gaps)
    ensures Hyphenate(Lower(Joined(words, gaps))) == Lower(Hyphened(words))
  {
    var w := words[0];
    assert Word(w);
    if |words| == 1 {
      HyphenateNone(Lower(w));
    } else {
      var gap, rest := gaps[0], Joined(words[1..], gaps[1..]);
      JoinedStarts(words[1..], gaps[1..]);
      HyphenateWords(words[1..], gaps[1..]);
      LowerAppend(w + gap, rest);
      LowerAppend(w, gap);
      LowerSpace(gap);
      HyphenateBoth(Lower(w), gap, Lower(rest));
      LowerAppend(w + "-", Hyphened(words[1..]));
      LowerAppend(w, "-");
      assert Lower("-") == "-";
    }
  }

  // What is left of each word.
  function Kept(words: seq<string>): seq<string> {
    seq(|words|, i requires 0 <= i < |words| => Keep(Lower(words[i])))
  }

  lemma KeptFirst(words: seq<string>)
    requires words != []
    ensures Kept(words)[0] == Keep(Lower(words[0])) && Kept(words)[1..] == Kept(words[1..])
  {
  }

  lemma {:induction false} KeepNoHyphen(s: string)
    requires '-' !in s
    ensures '-' !in Keep(s)
  {
    if s == [] {
    } else {
      KeepNoHyphen(s[1..]);
    }
  }

  lemma WordKept(w: string)
    requires Word(w)
    ensures Keep(Lower(w)) != [] && '-' !in Keep(Lower(w))
  {
    forall i | 0 <= i < |w| ensures Lower(w)[i] != '-' { assert w[i] != '-'; }
    KeepNoHyphen(Lower(w));
  }

  lemma KeepJoint(a: string, b: string)
    ensures Keep(Lower(a + "-" + b)) == Keep(Lower(a)) + "-" + Keep(Lower(b))
  {
    LowerAppend(a + "-", b);
    LowerAppend(a, "-");
    assert Lower("-") == "-";
    KeepAppend(Lower(a) + "-", Lower(b));
    KeepAppend(Lower(a), "-");
    KeepAll("-");
  }

  lemma {:induction false} KeepHyphened(words: seq<string>)
    requires words != [] && Words(words)
    ensures Keep(Lower(Hyphened(words))) == Hyphened(Kept(words))
    ensures var h := Hyphened(Kept(words));
            h != [] && h[0] != '-' && h[|h| - 1] != '-'
  {
    KeptFirst(words);
    WordKept(words[0]);
    if |words| > 1 {
      KeepHyphened(words[1..]);
      KeepJoint(words[0], Hyphened(words[1..]));
    }
  }

  // A name of words, in any case and with any white space between any two of them, asks for
  // what is left of the words in lower case, joined by hyphens.
  lemma BaseOfWords(words: seq<string>, gaps: seq<string>)
    requires words != [] && Words(words) && |words| <= |gaps| + 1 && Gaps(gaps)
    ensures Base(Joined(words, gaps)) == Hyphened(Kept(words))
  {
    HyphenateWords(words, gaps);
    KeepHyphened(words);
  }

  // Which characters survive does not depend on their neighbours.
  lemma {:induction false} KeepAppend(a: string, b: string)
    ensures Keep(a + b) == Keep(a) + Keep(b)
  {
    if a == [] {
      assert a + b == b;
    } else {
      assert (a + b)[1..] == a[1..] + b;
      KeepAppend(a[1..], b);
    }
  }
}
