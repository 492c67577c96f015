/** The owner encoding of tips and the label convention: the particle order is the high field, the
    process the low one, the sign bit says whether a cross-process edge touched the group. */
module Labels {
  import opened Graph

  const IDX_SPAN: int := 0x800_0000_0000        // 2^43 particle orders
  const PROC_SPAN: int := 0x10_0000             // 2^20 processes
  const LONG_SPAN: int := 0x8000_0000_0000_0000 // 2^63

  /** Masking a 64-bit field keeps the residue, whatever the sign of what is masked. */
  function EncodeTip(process: int, tip: int): nat {
    (tip % IDX_SPAN) * PROC_SPAN + process % PROC_SPAN
  }

  function Owner(vid: nat): nat {
    vid % PROC_SPAN
  }

  function Tip(vid: nat): nat {
    vid / PROC_SPAN
  }

  predicate Encodable(process: int, tip: int) {
    0 <= tip < IDX_SPAN && 0 <= process < PROC_SPAN
  }

  /** Decoding gives back what was encoded exactly for fields that fit, and the sign bit of a long
      stays clear. */
  lemma EncodeRoundTrip(process: int, tip: int)
    ensures EncodeTip(process, tip) < LONG_SPAN
    ensures Owner(EncodeTip(process, tip)) == process && Tip(EncodeTip(process, tip)) == tip <==>
          Encodable(process, tip)
  {
    var v := EncodeTip(process, tip);
    SplitFields(tip % IDX_SPAN, process % PROC_SPAN);
    assert v <= (IDX_SPAN - 1) * PROC_SPAN + PROC_SPAN - 1;
  }

  lemma SplitFields(high: nat, low: nat)
    requires low < PROC_SPAN
    ensures Tip(high * PROC_SPAN + low) == high && Owner(high * PROC_SPAN + low) == low
  {
    var v := high * PROC_SPAN + low;
    assert v == (v / PROC_SPAN) * PROC_SPAN + v % PROC_SPAN;
  }

  /** Every non-negative long is the encoding of its own fields. */
  lemma DecodeRoundTrip(vid: nat)
    requires vid < LONG_SPAN
    ensures Encodable(Owner(vid), Tip(vid)) && EncodeTip(Owner(vid), Tip(vid)) == vid
  {
    assert vid == (vid / PROC_SPAN) * PROC_SPAN + vid % PROC_SPAN;
  }

  /** Encoded tips compare by particle order first, so a minimum vertex id carries a minimum order
      whatever processes the tips live on. */
  lemma EncodeOrders(p: int, t: int, q: int, u: int)
    requires Encodable(p, t) && Encodable(q, u)
    ensures EncodeTip(p, t) < EncodeTip(q, u) <==> t < u || (t == u && p < q)
  {
    if t < u {
      assert t * PROC_SPAN + PROC_SPAN <= u * PROC_SPAN;
    } else if u < t {
      assert u * PROC_SPAN + PROC_SPAN <= t * PROC_SPAN;
    }
  }

  // ---- Labels.

  /** The label of a group some cross-process edge touched. */
  function Touched(boss: nat): int {
    -(boss + 2)
  }

  /** uf2MinOrderLabel. */
  function MinOrderLabel(l: int): int {
    if l == -1 then -1 else if l >= 0 then Tip(l) else Tip(-(l + 2))
  }

  /** Both kinds of label decode to the tip they carry; the kinds, and the "never labelled" mark,
      never meet. */
  lemma LabelsDecode(enc: nat)
    ensures MinOrderLabel(enc) == Tip(enc) && MinOrderLabel(Touched(enc)) == Tip(enc)
    ensures Touched(enc) < -1 && -Touched(enc) - 2 == enc && MinOrderLabel(-1) == -1
    ensures forall other: nat :: Touched(enc) != other && (Touched(other) == Touched(enc) ==> other == enc)
  {
  }

  /** The addition in -(boss + 2) stays inside a long except for the two topmost encoded tips: the
      last order of the last two process numbers. */
  lemma TouchedFits(process: int, tip: int)
    requires Encodable(process, tip)
    ensures EncodeTip(process, tip) + 2 < LONG_SPAN <==> !(tip == IDX_SPAN - 1 && process >= PROC_SPAN - 2)
  {
  }

  // ---- The linking graph seen through the encoding.

  ghost predicate Rising(f: int -> int) {
    forall x, y {:trigger f(x), f(y)} :: x < y ==> f(x) < f(y)
  }

  ghost function Image(E: Edges, f: int -> int): Edges {
    iset e | e in E :: (f(e.0), f(e.1))
  }

  lemma ImageConn(E: Edges, f: int -> int, x: int, y: int)
    requires Conn(E, x, y)
    ensures Conn(Image(E, f), f(x), f(y))
  {
    forall u, v | (u, v) in E
      ensures Conn(Image(E, f), f(u), f(v))
    {
      assert (f((u, v).0), f((u, v).1)) in Image(E, f);
      ConnEdge(Image(E, f), f(u), f(v));
    }
    ConnImage(E, Image(E, f), f, x, y);
  }

  ghost predicate Reaches(E: Edges, f: int -> int, x: int, w: int) {
    exists u :: Conn(E, x, u) && w == f(u)
  }

  /** Whatever the image connects to f(x) is itself the image of something E connects to x. */
  lemma ImageConnBack(E: Edges, f: int -> int, x: int, z: int) returns (y: int)
    requires Rising(f) && Conn(Image(E, f), f(x), z)
    ensures f(y) == z && Conn(E, x, y)
  {
    var S := iset w | Reaches(E, f, x, w);
    forall a, b | (a, b) in Image(E, f)
      ensures a in S <==> b in S
    {
      var e :| e in E && (a, b) == (f(e.0), f(e.1));
      ConnEdge(E, e.0, e.1);
      ConnSym(E, e.0, e.1);
      if a in S {
        var u :| Conn(E, x, u) && a == f(u);
        assert !(u < e.0) && !(e.0 < u);
        ConnTrans(E, x, e.0, e.1);
      }
      if b in S {
        var u :| Conn(E, x, u) && b == f(u);
        assert !(u < e.1) && !(e.1 < u);
        ConnTrans(E, x, e.1, e.0);
      }
    }
    ConnRefl(E, x);
    ConnClosed(Image(E, f), S, f(x), z);
    y :| Conn(E, x, y) && z == f(y);
  }

  /** A rising renaming carries component minima to component minima. */
  lemma ImageMin(E: Edges, f: int -> int, x: int, m: int)
    requires Rising(f)
    ensures IsComponentMin(Image(E, f), f(x), f(m)) <==> IsComponentMin(E, x, m)
    ensures forall z :: IsComponentMin(Image(E, f), f(x), z) ==> exists y :: z == f(y)
  {
    if IsComponentMin(E, x, m) {
      ImageConn(E, f, x, m);
      forall z | Conn(Image(E, f), f(x), z)
        ensures f(m) <= z
      {
        var y := ImageConnBack(E, f, x, z);
        assert m <= y;
      }
    }
    if IsComponentMin(Image(E, f), f(x), f(m)) {
      var k := ImageConnBack(E, f, x, f(m));
      assert !(k < m) && !(m < k);
      forall y | Conn(E, x, y)
        ensures m <= y
      {
        ImageConn(E, f, x, y);
        assert f(m) <= f(y);
      }
    }
    forall z | IsComponentMin(Image(E, f), f(x), z)
      ensures exists y :: z == f(y)
    {
      var y := ImageConnBack(E, f, x, z);
    }
  }
}
