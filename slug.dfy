/** `generateSlug`, defined identically in app/admin/newsletters/new/page.tsx and
    app/super-admin/newsletters/new/page.tsx: lower-case the text, replace every
    run of characters outside [a-z0-9] by "-", then remove dashes at either end.

    Lower-case (ASCII), turn every maximal run of characters outside [a-z0-9] into
    one "-", then drop a "-" at either end. After the first replacement no "--" can
    occur, so the second one removes at most one "-" at the front and one at the
    back, which is what `TrimDashes` does. */
module Slug {
  import opened Common

  predicate IsAlnum(c: char) {
    'a' <= c <= 'z' || '0' <= c <= '9'
  }

  predicate IsSlugChar(c: char) {
    IsAlnum(c) || c == '-'
  }

  /** Only the characters of [a-z0-9-], with no "--" anywhere. */
  predicate Dashed(s: string) {
    && (forall i :: 0 <= i < |s| ==> IsSlugChar(s[i]))
    && (forall i :: 0 < i < |s| && s[i] == '-' ==> s[i - 1] != '-')
  }

  /** A slug: `Dashed`, and neither starting nor ending with "-". */
  predicate IsSlug(s: string) {
    Dashed(s) && (s != [] ==> s[0] != '-' && s[|s| - 1] != '-')
  }

  /** The rest of `s` after the run of non-[a-z0-9] characters at its front. */
  function SkipRun(s: string): (r: string)
    ensures |r| <= |s| && r == s[|s| - |r|..]
    ensures r != [] ==> IsAlnum(r[0])
  {
    if s == [] || IsAlnum(s[0]) then s else SkipRun(s[1..])
  }

  /** `replace(/[^a-z0-9]+/g, "-")`. */
  function Dashify(s: string): (r: string)
    ensures Dashed(r)
    ensures r == [] <==> s == []
    ensures s != [] && IsAlnum(s[0]) ==> r[0] == s[0]
    ensures s != [] && !IsAlnum(s[0]) ==> r[0] == '-'
    decreases |s|
  {
    if s == [] then []
    else if IsAlnum(s[0]) then [s[0]] + Dashify(s[1..])
    else "-" + Dashify(SkipRun(s[1..]))
  }

  /** `replace(/(^-|-$)+/g, "")` on a string in which "--" does not occur. */
  function TrimDashes(t: string): (r: string)
    requires Dashed(t)
    ensures IsSlug(r)
  {
    var front := if t != [] && t[0] == '-' then t[1..] else t;
    assert Dashed(front) by {
      if front != t {
        forall i | 0 < i < |front| && front[i] == '-' ensures front[i - 1] != '-' {
          assert t[i + 1] == '-';
        }
      }
    }
    assert front != [] ==> front[0] != '-' by {
      if front != t && front != [] {
        assert t[1] == front[0];
      }
    }
    if front != [] && front[|front| - 1] == '-' then
      var r := front[..|front| - 1];
      assert r != [] ==> r[|r| - 1] == front[|front| - 2];
      r
    else front
  }

  /** `generateSlug`. */
  function GenerateSlug(text: string): (slug: string)
    ensures IsSlug(slug)
  {
    TrimDashes(Dashify(Lower(text)))
  }

  // ---------------------------------------------------------------------------
  // The characters a slug keeps

  /** `s` without its "-" characters. */
  function NoDashes(s: string): string {
    if s == [] then [] else (if s[0] == '-' then [] else [s[0]]) + NoDashes(s[1..])
  }

  /** The [a-z0-9] characters of `s`, in order. */
  function Alnums(s: string): string {
    if s == [] then [] else (if IsAlnum(s[0]) then [s[0]] else []) + Alnums(s[1..])
  }

  lemma {:induction false} NoDashesAppend(a: string, b: string)
    ensures NoDashes(a + b) == NoDashes(a) + NoDashes(b)
  {
    if a != [] {
      assert (a + b)[1..] == a[1..] + b;
      NoDashesAppend(a[1..], b);
    } else {
      assert a + b == b;
    }
  }

  lemma {:induction false} SkipRunKeepsAlnums(s: string)
    ensures Alnums(SkipRun(s)) == Alnums(s)
  {
    if s != [] && !IsAlnum(s[0]) {
      SkipRunKeepsAlnums(s[1..]);
    }
  }

  lemma {:induction false} DashifyKeepsAlnums(s: string)
    ensures NoDashes(Dashify(s)) == Alnums(s)
    decreases |s|
  {
    if s != [] {
      if IsAlnum(s[0]) {
        assert ([s[0]] + Dashify(s[1..]))[1..] == Dashify(s[1..]);
        DashifyKeepsAlnums(s[1..]);
      } else {
        assert ("-" + Dashify(SkipRun(s[1..])))[1..] == Dashify(SkipRun(s[1..]));
        DashifyKeepsAlnums(SkipRun(s[1..]));
        SkipRunKeepsAlnums(s[1..]);
      }
    }
  }

  lemma TrimKeepsNonDashes(t: string)
    requires Dashed(t)
    ensures NoDashes(TrimDashes(t)) == NoDashes(t)
  {
    var front := if t != [] && t[0] == '-' then t[1..] else t;
    assert NoDashes(front) == NoDashes(t);
    if front != [] && front[|front| - 1] == '-' {
      var r := front[..|front| - 1];
      assert front == r + "-";
      NoDashesAppend(r, "-");
      assert NoDashes("-") == [];
    }
  }

  /** Deleting "-" from a slug gives exactly the [a-z0-9] characters of the
      lower-cased title, in order. */
  lemma SlugKeepsAlnums(text: string)
    ensures NoDashes(GenerateSlug(text)) == Alnums(Lower(text))
  {
    DashifyKeepsAlnums(Lower(text));
    TrimKeepsNonDashes(Dashify(Lower(text)));
  }

  // ---------------------------------------------------------------------------
  // Idempotence

  lemma {:induction false} LowerOfSlug(s: string)
    requires Dashed(s)
    ensures Lower(s) == s
  {
    if s != [] {
      assert Dashed(s[1..]) by {
        forall i | 0 < i < |s[1..]| && s[1..][i] == '-' ensures s[1..][i - 1] != '-' {
          assert s[i + 1] == '-';
        }
      }
      LowerOfSlug(s[1..]);
    }
  }

  lemma {:induction false} DashifyOfDashed(s: string)
    requires Dashed(s)
    ensures Dashify(s) == s
  {
    if s != [] {
      var rest := s[1..];
      assert Dashed(rest) by {
        forall i | 0 < i < |rest| && rest[i] == '-' ensures rest[i - 1] != '-' {
          assert s[i + 1] == '-';
        }
      }
      DashifyOfDashed(rest);
      if !IsAlnum(s[0]) {
        assert rest != [] ==> s[1] != '-';
        assert SkipRun(rest) == rest;
      }
    }
  }

  /** Generating a slug from a slug gives it back: slug(slug(x)) == slug(x). */
  lemma SlugIdempotent(text: string)
    ensures GenerateSlug(GenerateSlug(text)) == GenerateSlug(text)
  {
    var s := GenerateSlug(text);
    LowerOfSlug(s);
    DashifyOfDashed(s);
  }
}
