/** What `sorted(list(Path(folder).glob("*.png")))` yields for the names in
    one folder, and `Path.stem`. Both scripts that read a folder of screenshots
    start this way. Names are compared as Python compares strings (code point
    by code point, a prefix first); for paths in one folder that is the order
    of their names. */
module PngListing {

  /** Python's `a <= b` on `str`. */
  predicate NameLe(a: string, b: string)
    decreases |a|
  {
    a == [] || (b != [] && (a[0] < b[0] || (a[0] == b[0] && NameLe(a[1..], b[1..]))))
  }

  lemma {:induction false} NameLeTotal(a: string, b: string)
    ensures NameLe(a, b) || NameLe(b, a)
    decreases |a|
  {
    if a != [] && b != [] && a[0] == b[0] {
      NameLeTotal(a[1..], b[1..]);
    }
  }

  /** A prefix comes first, and otherwise the first character decides. */
  lemma {:induction false} NameLePrefix(a: string, b: string)
    ensures |a| <= |b| && a == b[..|a|] ==> NameLe(a, b)
    ensures NameLe(a, b) && a != [] ==> b != [] && a[0] <= b[0]
    decreases |a|
  {
    if a != [] && |a| <= |b| && a == b[..|a|] {
      assert a[1..] == b[1..][..|a| - 1];
      NameLePrefix(a[1..], b[1..]);
    }
  }

  lemma {:induction false} NameLeAntisymmetric(a: string, b: string)
    requires NameLe(a, b) && NameLe(b, a)
    ensures a == b
    decreases |a|
  {
    if a != [] && b != [] {
      NameLeAntisymmetric(a[1..], b[1..]);
      assert a == [a[0]] + a[1..] && b == [b[0]] + b[1..];
    }
  }

  lemma {:induction false} NameLeTransitive(a: string, b: string, c: string)
    requires NameLe(a, b) && NameLe(b, c)
    ensures NameLe(a, c)
    decreases |a|
  {
    if a != [] && b != [] && c != [] && a[0] == b[0] == c[0] {
      NameLeTransitive(a[1..], b[1..], c[1..]);
    }
  }

  predicate IsSorted(s: seq<string>) {
    forall i, j :: 0 <= i < j < |s| ==> NameLe(s[i], s[j])
  }

  /** A name not above any name of a sorted sequence can be put in front. */
  lemma ConsSorted(x: string, s: seq<string>)
    requires IsSorted(s)
    requires forall y :: y in s ==> NameLe(x, y)
    ensures IsSorted([x] + s)
  {
    var r := [x] + s;
    forall i, j | 0 <= i < j < |r| ensures NameLe(r[i], r[j]) {
      if i == 0 {
        assert r[j] == s[j - 1] && r[j] in s;
      } else {
        assert r[i] == s[i - 1] && r[j] == s[j - 1];
      }
    }
  }

  /** Inserts `x` into a sorted sequence after the names not above it. */
  function Insert(x: string, s: seq<string>): (r: seq<string>)
    requires IsSorted(s)
    ensures IsSorted(r) && multiset(r) == multiset(s) + multiset{x}
  {
    if s == [] then [x]
    else if NameLe(x, s[0]) then
      assert forall y :: y in s ==> NameLe(x, y) by {
        forall y | y in s ensures NameLe(x, y) {
          var j :| 0 <= j < |s| && s[j] == y;
          if j > 0 { NameLeTransitive(x, s[0], s[j]); }
        }
      }
      ConsSorted(x, s);
      [x] + s
    else
      var tail := s[1..];
      assert IsSorted(tail) by {
        forall i, j | 0 <= i < j < |tail| ensures NameLe(tail[i], tail[j]) {
          assert tail[i] == s[i + 1] && tail[j] == s[j + 1];
        }
      }
      var rest := Insert(x, tail);
      assert s == [s[0]] + tail;
      assert forall y :: y in rest ==> NameLe(s[0], y) by {
        forall y | y in rest ensures NameLe(s[0], y) {
          assert y in multiset(rest);
          if y == x {
            NameLeTotal(x, s[0]);
          } else {
            assert y in multiset(tail);
            var j :| 0 <= j < |tail| && tail[j] == y;
            assert s[j + 1] == y;
          }
        }
      }
      ConsSorted(s[0], rest);
      [s[0]] + rest
  }

  /** `sorted(names)`: the names in ascending order. */
  function Sort(names: seq<string>): (r: seq<string>)
    ensures IsSorted(r) && multiset(r) == multiset(names)
  {
    if names == [] then []
    else
      assert names == names[..|names| - 1] + [names[|names| - 1]];
      Insert(names[|names| - 1], Sort(names[..|names| - 1]))
  }

  /** A name the pattern `*.png` matches (case-sensitive, dot files included). */
  function IsPngName(name: string): (b: bool)
    ensures b <==> exists stem :: name == stem + ".png"
  {
    if |name| >= 4 && name[|name| - 4..] == ".png" then
      assert name == name[..|name| - 4] + ".png";
      true
    else
      assert forall stem :: name != stem + ".png" by {
        forall stem ensures name != stem + ".png" {
          assert (stem + ".png")[|stem|..] == ".png";
        }
      }
      false
  }

  /** The entries of a folder listing that `glob("*.png")` yields, in listing order. */
  function PngNames(listing: seq<string>): (r: seq<string>)
    ensures forall n :: n in r <==> n in listing && IsPngName(n)
    ensures forall n :: multiset(r)[n] == if IsPngName(n) then multiset(listing)[n] else 0
  {
    if listing == [] then []
    else
      assert listing == [listing[0]] + listing[1..];
      (if IsPngName(listing[0]) then [listing[0]] else []) + PngNames(listing[1..])
  }

  /** `sorted(list(Path(folder).glob("*.png")))` for a folder whose entries are `listing`. */
  function PngFiles(listing: seq<string>): (r: seq<string>)
    ensures IsSorted(r) && multiset(r) == multiset(PngNames(listing))
    ensures forall n :: n in r <==> n in listing && IsPngName(n)
    ensures forall n :: multiset(r)[n] == if IsPngName(n) then multiset(listing)[n] else 0
  {
    var r := Sort(PngNames(listing));
    assert forall n :: n in r <==> n in multiset(PngNames(listing));
    r
  }

  /** The position of the last `c` in `s`, or -1 (`str.rfind`). */
  function LastIndexOf(s: string, c: char): (r: int)
    ensures -1 <= r < |s|
    ensures r >= 0 ==> s[r] == c
    ensures forall j :: r < j < |s| ==> s[j] != c
  {
    if s == [] then -1
    else if s[|s| - 1] == c then |s| - 1
    else LastIndexOf(s[..|s| - 1], c)
  }

  /** `PurePath(name).stem`: the name without its last suffix, where a suffix
      is a dot that is neither the first nor the last character, and what
      follows it. */
  function Stem(name: string): (r: string)
    ensures |r| <= |name| && r == name[..|r|]
    ensures r != name ==> 0 < |r| < |name| - 1 && name[|r|] == '.'
    ensures r != name ==> forall j :: |r| < j < |name| ==> name[j] != '.'
  {
    var i := LastIndexOf(name, '.');
    if 0 < i < |name| - 1 then name[..i] else name
  }

  /** The stem of a PNG name is the name without `.png`; `.png` alone is its own stem. */
  lemma StemOfPngName(name: string)
    requires IsPngName(name)
    ensures Stem(name) == if |name| == 4 then name else name[..|name| - 4]
  {
    var i := |name| - 4;
    assert name[i] == '.' && name[i + 1] == 'p' && name[i + 2] == 'n' && name[i + 3] == 'g' by {
      assert name[i..] == ".png";
    }
    var r := Stem(name);
    if r != name {
      assert |r| == i;
    }
  }
}
