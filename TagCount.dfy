/**
  Counting the table rows of an HTML text: the number of places where the
  opening tag `<tr>` starts. The lemmas let a count be split at the seams of
  a concatenation wherever no `<tr>` can straddle the seam.
 */
module TagCount {

  /** True when the four characters of `s` from `i` on spell `<tr>`. */
  predicate RowTagAt(s: string, i: nat)
    requires i + 4 <= |s|
  {
    s[i] == '<' && s[i + 1] == 't' && s[i + 2] == 'r' && s[i + 3] == '>'
  }

  /** Number of positions of `s` where `<tr>` starts. */
  function CountRowTags(s: string): nat
  {
    if |s| < 4 then 0 else (if RowTagAt(s, 0) then 1 else 0) + CountRowTags(s[1..])
  }

  /** A text without `<` holds no row tag. */
  lemma {:induction false} NoOpeningBracket(s: string)
    requires '<' !in s
    ensures CountRowTags(s) == 0
  {
    if |s| >= 4 {
      assert s[0] in s;
      assert forall c | c in s[1..] :: c in s;
      NoOpeningBracket(s[1..]);
    }
  }

  /** `s` starts with `<`. */
  predicate Abre(s: string)
  {
    |s| > 0 && s[0] == '<'
  }

  /** `s` ends with `>`. */
  predicate Fecha(s: string)
  {
    |s| > 0 && s[|s| - 1] == '>'
  }

  /**
    A seam between `a` and `b` cannot be straddled by `<tr>` when `a` ends
    with `>` (the tag would need `<`, `t` or `r` there) or when `b` starts
    with `<` (the tag would need `t`, `r` or `>` there).
   */
  predicate Seam(a: string, b: string)
  {
    Fecha(a) || Abre(b)
  }

  /** Across a seam the counts add up; the joined text opens as `a` does and closes as `b` does. */
  lemma {:induction false} CountAcrossSeam(a: string, b: string)
    requires Seam(a, b)
    ensures CountRowTags(a + b) == CountRowTags(a) + CountRowTags(b)
    ensures Abre(a) ==> Abre(a + b)
    ensures Fecha(b) ==> Fecha(a + b)
  {
    if |a| == 0 {
      assert a + b == b;
    } else if |a + b| < 4 {
    } else {
      var s := a + b;
      assert s[1..] == a[1..] + b;
      if |a| == 1 {
        assert a[1..] + b == b;
        assert s[0] == a[0];
        assert !RowTagAt(s, 0) by {
          if a[0] == '>' { } else { assert b[0] == '<' && s[1] == b[0]; }
        }
      } else {
        assert Seam(a[1..], b) by {
          assert a[1..][|a[1..]| - 1] == a[|a| - 1];
        }
        CountAcrossSeam(a[1..], b);
        if |a| >= 4 {
          assert s[..4] == a[..4];
          assert RowTagAt(s, 0) == RowTagAt(a, 0) by {
            assert s[0] == a[0] && s[1] == a[1] && s[2] == a[2] && s[3] == a[3];
          }
        } else {
          assert CountRowTags(a) == 0;
          assert CountRowTags(a[1..]) == 0;
          assert !RowTagAt(s, 0) by {
            if a[|a| - 1] == '>' {
              assert s[|a| - 1] == '>';
            } else {
              assert s[|a|] == b[0] == '<';
            }
          }
        }
      }
    }
  }

  /** A single tag other than `tr`: a `<` followed by text without `<` that does not start with `tr`. */
  lemma OtherTag(rest: string)
    requires '<' !in rest
    requires |rest| < 2 || rest[0] != 't' || rest[1] != 'r'
    ensures CountRowTags("<" + rest) == 0
  {
    var s := "<" + rest;
    NoOpeningBracket(rest);
    if |s| >= 4 {
      assert s[1..] == rest;
      assert s[1] == rest[0] && s[2] == rest[1];
    }
  }

  /** A bare tag `<t>` whose name is not `tr` and holds no `<`: no row tag, and it opens and closes the text. */
  lemma SingleTag(t: string)
    requires '<' !in t
    requires |t| < 2 || t[0] != 't' || t[1] != 'r'
    ensures CountRowTags("<" + t + ">") == 0
    ensures Abre("<" + t + ">") && Fecha("<" + t + ">")
  {
    assert "<" + t + ">" == "<" + (t + ">");
    assert '<' !in t + ">";
    OtherTag(t + ">");
  }

  lemma RowTagCountsOne()
    ensures CountRowTags("<tr>") == 1
    ensures Abre("<tr>") && Fecha("<tr>")
  {
    assert "<tr>"[1..] == "tr>";
  }
}
