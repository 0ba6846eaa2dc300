/** `nameToSlug`: a product name turned into a URL slug. The catalogue API and the
    shared product helpers each carry a copy of the same definition; both are this
    one function. */
module Slug {
  import opened Js

  /** The six `.replace(/x/g, 'y')` calls for the lower-case Turkish letters
      ı ğ ü ş ö ç. Each maps one letter to an ASCII letter that no later call
      touches, so together they act character by character. */
  function FoldChar(c: char): (r: char)
    ensures c !in TurkishLower ==> r == c
    ensures c in TurkishLower ==> IsAsciiLower(r)
  {
    if c == '\U{0131}' then 'i'        // ı
    else if c == '\U{011F}' then 'g'   // ğ
    else if c == '\U{00FC}' then 'u'   // ü
    else if c == '\U{015F}' then 's'   // ş
    else if c == '\U{00F6}' then 'o'   // ö
    else if c == '\U{00E7}' then 'c'   // ç
    else c
  }

  const TurkishLower: set<char> := {'\U{0131}', '\U{011F}', '\U{00FC}', '\U{015F}', '\U{00F6}', '\U{00E7}'}

  function Fold(s: string): (r: string)
    ensures |r| == |s|
    ensures forall i :: 0 <= i < |s| ==> r[i] == FoldChar(s[i])
  {
    seq(|s|, i requires 0 <= i < |s| => FoldChar(s[i]))
  }

  /** The characters `[a-z0-9]` that survive the run replacement. */
  predicate IsSlugChar(c: char) { IsAsciiLower(c) || IsDigit(c) }

  /** Drop the leading run of characters outside `[a-z0-9]`. */
  function DropRun(s: string): (r: string)
    ensures |r| <= |s| && r == s[|s| - |r|..]
    ensures r == [] || IsSlugChar(r[0])
  {
    if s != [] && !IsSlugChar(s[0]) then DropRun(s[1..]) else s
  }

  /** `.replace(/[^a-z0-9]+/g, '-')`: every maximal run of other characters becomes
      a single `-`. The result holds only `[a-z0-9-]`, never two `-` in a row, and
      starts the way its input starts. */
  function CollapseRuns(s: string): (r: string)
    ensures SlugChars(r)
    ensures NoDoubleDash(r)
    ensures s == [] <==> r == []
    ensures s != [] && IsSlugChar(s[0]) ==> r[0] == s[0]
    ensures s != [] && !IsSlugChar(s[0]) ==> r[0] == '-'
    decreases |s|
  {
    if s == [] then []
    else if IsSlugChar(s[0]) then [s[0]] + CollapseRuns(s[1..])
    else ['-'] + CollapseRuns(DropRun(s[1..]))
  }

  /** The `^-+` half of `.replace(/^-+|-+$/g, '')`. */
  function TrimStart(s: string): (r: string)
    ensures |r| <= |s| && r == s[|s| - |r|..]
    ensures r == [] || r[0] != '-'
    ensures forall i :: 0 <= i < |s| - |r| ==> s[i] == '-'
  {
    if s != [] && s[0] == '-' then TrimStart(s[1..]) else s
  }

  /** The `-+$` half. */
  function TrimEnd(s: string): (r: string)
    ensures |r| <= |s| && r == s[..|r|]
    ensures r == [] || r[|r| - 1] != '-'
    ensures forall i :: |r| <= i < |s| ==> s[i] == '-'
  {
    if s != [] && s[|s| - 1] == '-' then TrimEnd(s[..|s| - 1]) else s
  }

  /** Only `[a-z0-9-]`. */
  ghost predicate SlugChars(t: string)
  {
    forall i :: 0 <= i < |t| ==> IsSlugChar(t[i]) || t[i] == '-'
  }

  /** No two `-` side by side. */
  ghost predicate NoDoubleDash(t: string)
  {
    forall i, j :: 0 <= i < j < |t| && j == i + 1 ==> !(t[i] == '-' && t[j] == '-')
  }

  /** A well-formed slug: `[a-z0-9-]` only, no `-` at either end, no `--`. */
  ghost predicate IsSlug(t: string)
  {
    && (SlugChars(t))
    && (t == [] || (t[0] != '-' && t[|t| - 1] != '-'))
    && (NoDoubleDash(t))
  }

  /** `nameToSlug(name)`. */
  function NameToSlug(name: string): (r: string)
    ensures IsSlug(r)
  {
    var c := CollapseRuns(Fold(ToLower(name)));
    TrimMakesSlug(c);
    TrimEnd(TrimStart(c))
  }

  /** A whole run of characters outside `[a-z0-9]`, of any length, becomes exactly
      one `-`: it is neither dropped nor split. */
  lemma CollapseRunsRun(run: string, rest: string)
    requires run != [] && forall i :: 0 <= i < |run| ==> !IsSlugChar(run[i])
    requires rest == [] || IsSlugChar(rest[0])
    ensures CollapseRuns(run + rest) == ['-'] + CollapseRuns(rest)
  {
    assert (run + rest)[0] == run[0];
    assert (run + rest)[1..] == run[1..] + rest;
    DropRunSkips(run[1..], rest);
  }

  /** Dropping the leading run stops exactly at the first `[a-z0-9]` character. */
  lemma {:induction false} DropRunSkips(run: string, rest: string)
    requires forall i :: 0 <= i < |run| ==> !IsSlugChar(run[i])
    requires rest == [] || IsSlugChar(rest[0])
    ensures DropRun(run + rest) == rest
  {
    if run != [] {
      assert (run + rest)[0] == run[0];
      assert (run + rest)[1..] == run[1..] + rest;
      DropRunSkips(run[1..], rest);
    } else {
      assert run + rest == rest;
    }
  }

  /** Trimming the end dashes of a string with no `--` and only `[a-z0-9-]` leaves
      a slug. */
  lemma TrimMakesSlug(c: string)
    requires SlugChars(c) && NoDoubleDash(c)
    ensures IsSlug(TrimEnd(TrimStart(c)))
  {
    var s := TrimStart(c);
    SliceKeeps(c, |c| - |s|, |c|);
    var t := TrimEnd(s);
    SliceKeeps(s, 0, |t|);
  }

  lemma SliceKeeps(c: string, lo: nat, hi: nat)
    requires lo <= hi <= |c|
    requires SlugChars(c) && NoDoubleDash(c)
    ensures SlugChars(c[lo..hi]) && NoDoubleDash(c[lo..hi])
  {
    var t := c[lo..hi];
    forall i, j | 0 <= i < j < |t| && j == i + 1 ensures !(t[i] == '-' && t[j] == '-') {
      assert t[i] == c[lo + i] && t[j] == c[lo + j];
    }
  }

  // ---------------------------------------------------------------- idempotence

  lemma {:induction false} CollapseRunsFixed(t: string)
    requires SlugChars(t)
    requires NoDoubleDash(t)
    ensures CollapseRuns(t) == t
    decreases |t|
  {
    if t != [] {
      CollapseRunsFixed(t[1..]);
      if !IsSlugChar(t[0]) {
        assert DropRun(t[1..]) == t[1..];
      }
    }
  }

  /** A slug is its own slug: lower-casing, folding, collapsing and trimming all
      leave it alone. */
  lemma SlugFixed(t: string)
    requires IsSlug(t)
    ensures NameToSlug(t) == t
  {
    assert ToLower(t) == t;
    assert Fold(t) == t;
    CollapseRunsFixed(t);
  }

  /** `nameToSlug` is idempotent, and its fixed points are exactly the slugs. */
  lemma NameToSlugIdempotent(name: string, t: string)
    ensures NameToSlug(NameToSlug(name)) == NameToSlug(name)
    ensures NameToSlug(t) == t <==> IsSlug(t)
  {
    SlugFixed(NameToSlug(name));
    if IsSlug(t) {
      SlugFixed(t);
    }
  }

  // ---------------------------------------------------------------- letters kept

  /** The `[a-z0-9]` characters of a string, in order. */
  function Alnums(s: string): string
  {
    if s == [] then [] else (if IsSlugChar(s[0]) then [s[0]] else []) + Alnums(s[1..])
  }

  lemma {:induction false} AlnumsDropRun(s: string)
    ensures Alnums(DropRun(s)) == Alnums(s)
  {
    if s != [] && !IsSlugChar(s[0]) {
      AlnumsDropRun(s[1..]);
    }
  }

  lemma {:induction false} AlnumsCollapseRuns(s: string)
    ensures Alnums(CollapseRuns(s)) == Alnums(s)
    decreases |s|
  {
    if s != [] {
      if IsSlugChar(s[0]) {
        AlnumsCollapseRuns(s[1..]);
        AlnumsCons(s[0], CollapseRuns(s[1..]));
      } else {
        AlnumsCollapseRuns(DropRun(s[1..]));
        AlnumsDropRun(s[1..]);
        AlnumsCons('-', CollapseRuns(DropRun(s[1..])));
      }
    }
  }

  lemma AlnumsCons(c: char, t: string)
    ensures Alnums([c] + t) == (if IsSlugChar(c) then [c] else []) + Alnums(t)
  {
    assert ([c] + t)[1..] == t;
  }

  lemma {:induction false} AlnumsDashes(a: string, b: string)
    requires forall i :: 0 <= i < |a| ==> a[i] == '-'
    ensures Alnums(a + b) == Alnums(b)
  {
    if a != [] {
      assert (a + b)[1..] == a[1..] + b;
      AlnumsDashes(a[1..], b);
    } else {
      assert a + b == b;
    }
  }

  /** Trimming the end dashes drops no letter or digit. */
  lemma AlnumsTrim(c: string)
    ensures Alnums(TrimEnd(TrimStart(c))) == Alnums(c)
  {
    AlnumsTrimStart(c);
    AlnumsTrimEnd(TrimStart(c));
  }

  lemma AlnumsTrimStart(c: string)
    ensures Alnums(TrimStart(c)) == Alnums(c)
  {
    var s := TrimStart(c);
    assert c == c[..|c| - |s|] + s;
    AlnumsDashes(c[..|c| - |s|], s);
  }

  lemma AlnumsTrimEnd(s: string)
    ensures Alnums(TrimEnd(s)) == Alnums(s)
  {
    var t := TrimEnd(s);
    assert s == t + s[|t|..];
    AlnumsAppend(t, s[|t|..]);
    AlnumsOnlyDashes(s[|t|..]);
  }

  /** Every letter and digit left after lower-casing and folding reaches the slug,
      in order; only the separators change. */
  lemma NameToSlugKeepsAlnums(name: string)
    ensures Alnums(NameToSlug(name)) == Alnums(Fold(ToLower(name)))
  {
    var f := Fold(ToLower(name));
    AlnumsCollapseRuns(f);
    AlnumsTrim(CollapseRuns(f));
  }

  lemma {:induction false} AlnumsAppend(a: string, b: string)
    ensures Alnums(a + b) == Alnums(a) + Alnums(b)
  {
    if a != [] {
      assert (a + b)[1..] == a[1..] + b;
      AlnumsAppend(a[1..], b);
    } else {
      assert a + b == b;
    }
  }

  lemma {:induction false} AlnumsOnlyDashes(a: string)
    requires forall i :: 0 <= i < |a| ==> a[i] == '-'
    ensures Alnums(a) == []
  {
    if a != [] {
      AlnumsOnlyDashes(a[1..]);
    }
  }

  // ---------------------------------------------------------------- examples

  /** The mock catalogue's first product gets the slug its image is keyed by. */
  lemma SmartWatchSlug()
    ensures NameToSlug("Ak\U{0131}ll\U{0131} Saat") == "akilli-saat"
  {
    SmartWatchFolded();
    CollapseRunsWords("akilli", "saat");
    var c := CollapseRuns("akilli" + [' '] + "saat");
    assert c == "akilli-saat";
    assert TrimStart(c) == c;
  }

  lemma SmartWatchFolded()
    ensures Fold(ToLower("Ak\U{0131}ll\U{0131} Saat")) == "akilli" + [' '] + "saat"
  {
    var lowered := ToLower("Ak\U{0131}ll\U{0131} Saat");
    assert lowered == "ak\U{0131}ll\U{0131} saat";
  }

  /** Two words of `[a-z0-9]` separated by one space are joined by one `-`. */
  lemma CollapseRunsWords(a: string, b: string)
    requires forall i :: 0 <= i < |a| ==> IsSlugChar(a[i])
    requires b != [] && IsSlugChar(b[0])
    ensures CollapseRuns(a + [' '] + b) == a + ['-'] + CollapseRuns(b)
  {
    CollapseRunsAlnums(a, [' '] + b);
    assert ([' '] + b)[1..] == b;
    assert a + [' '] + b == a + ([' '] + b);
    assert a + ['-'] + CollapseRuns(b) == a + (['-'] + CollapseRuns(b));
  }

  /** A leading run of `[a-z0-9]` passes through unchanged. */
  lemma {:induction false} CollapseRunsAlnums(a: string, rest: string)
    requires forall i :: 0 <= i < |a| ==> IsSlugChar(a[i])
    ensures CollapseRuns(a + rest) == a + CollapseRuns(rest)
  {
    if a != [] {
      assert (a + rest)[1..] == a[1..] + rest;
      CollapseRunsAlnums(a[1..], rest);
      assert a == [a[0]] + a[1..];
    } else {
      assert a + rest == rest;
    }
  }
}
