/** Shared result types and the few set lemmas several modules need. */
module Prelude {
  datatype Option<+T> = None | Some(value: T)

  datatype Result<+T, +E> = Ok(value: T) | Err(error: E)

  /** A uint64 value lies below this bound. */
  const UINT64_LIMIT: nat := 0x1_0000_0000_0000_0000

  /** A uint32 value lies below this bound. */
  const UINT32_LIMIT: nat := 0x1_0000_0000

  ghost predicate Distinct<T>(s: seq<T>) {
    forall i, j :: 0 <= i < j < |s| ==> s[i] != s[j]
  }

  ghost function Elements<T>(s: seq<T>): set<T> {
    set x | x in s
  }

  ghost function Image<A(!new), B>(f: A -> B, xs: set<A>): set<B> {
    set x | x in xs :: f(x)
  }

  ghost predicate Injective<A(!new), B(!new)>(f: A -> B) {
    forall x, y :: f(x) == f(y) ==> x == y
  }

  lemma ImageRemove<A(!new), B(!new)>(f: A -> B, xs: set<A>, x: A)
    requires Injective(f)
    ensures Image(f, xs) - {f(x)} == Image(f, xs - {x})
  {
    forall b
      ensures b in Image(f, xs) - {f(x)} <==> b in Image(f, xs - {x})
    {
      if b in Image(f, xs) && b != f(x) {
        var y :| y in xs && f(y) == b;
        assert y in xs - {x};
      }
    }
  }

  /** A sequence has as many distinct elements as positions exactly when it repeats nothing. */
  lemma {:induction false} ElementsCount<T>(s: seq<T>)
    ensures |Elements(s)| <= |s|
    ensures |Elements(s)| == |s| <==> Distinct(s)
  {
    if s == [] {
    } else {
      var front, last := s[..|s| - 1], s[|s| - 1];
      ElementsCount(front);
      assert s == front + [last];
      assert Elements(s) == Elements(front) + {last};
      if last in front {
        assert Elements(s) == Elements(front);
        assert !Distinct(s);
      } else {
        assert |Elements(s)| == |Elements(front)| + 1;
        if Distinct(front) {
          assert Distinct(s);
        } else {
          var i, j :| 0 <= i < j < |front| && front[i] == front[j];
          assert s[i] == s[j];
        }
      }
    }
  }

  /** A one-element set determines its element. */
  lemma SingletonMember<T>(s: set<T>, x: T, y: T)
    requires |s| == 1 && x in s && y in s
    ensures x == y
  {
    assert |s - {x}| == 0;
    assert y !in s - {x};
  }
}
