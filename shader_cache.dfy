/**
 * What the pixel and vertex shader caches share: uids as ordered keys, the
 * records of the append-only disk cache, the ascending order in which a
 * `std::map` visits its keys, and the Release calls of destroying entries.
 */
module ShaderCache {
  import opened D3DPtr
  import opened D3DShader

  /** A shader uid (`PixelShaderUid`, `VertexShaderUid`), ordered by its `operator<` as the key of the map. */
  type Uid = nat

  /** One record of the append-only disk cache: a uid and its bytecode. */
  datatype Record = Record(uid: Uid, code: Bytecode)

  /** The Release calls of destroying owners of these pointers in order. */
  function ReleasesOf(ps: seq<Ptr>): seq<RefEvent>
  {
    if |ps| == 0 then [] else ReleasesOf(ps[..|ps| - 1]) + ReleaseOf(ps[|ps| - 1])
  }

  predicate StrictlyIncreasing(s: seq<Uid>)
  {
    forall i, j :: 0 <= i < j < |s| ==> s[i] < s[j]
  }

  /** The least uid of a non-empty set, where `std::map` iteration starts. */
  function Least(s: set<Uid>): (m: Uid)
    requires s != {}
    ensures m in s && forall k :: k in s ==> m <= k
  {
    LeastExists(s);
    var m :| m in s && forall k :: k in s ==> m <= k;
    m
  }

  lemma {:induction false} LeastExists(s: set<Uid>)
    requires s != {}
    ensures exists m :: m in s && forall k :: k in s ==> m <= k
    decreases s
  {
    var x :| x in s;
    var rest := s - {x};
    if rest == {} {
      assert s == {x};
      assert forall k :: k in s ==> x <= k;
    } else {
      LeastExists(rest);
      var m :| m in rest && forall k :: k in rest ==> m <= k;
      LeastOfOneMore(s, x, m);
    }
  }

  /** The least of `s` is `x` or the least of the rest of `s`, whichever is smaller. */
  lemma LeastOfOneMore(s: set<Uid>, x: Uid, m: Uid)
    requires x in s && m in s - {x} && forall k :: k in s - {x} ==> m <= k
    ensures var least := if x < m then x else m; least in s && forall k :: k in s ==> least <= k
  {
    forall k | k in s
      ensures (if x < m then x else m) <= k
    {
      if k != x {
        assert k in s - {x};
      }
    }
  }

  /** The keys of a map in the order `std::map` visits them: ascending. */
  function AscendingKeys(s: set<Uid>): (r: seq<Uid>)
    ensures StrictlyIncreasing(r)
    ensures forall k :: k in r <==> k in s
    decreases s
  {
    if s == {} then []
    else
      var m := Least(s);
      var rest := AscendingKeys(s - {m});
      assert forall j :: 0 <= j < |rest| ==> rest[j] in s - {m};
      [m] + rest
  }
}
