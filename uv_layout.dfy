/** The "net" texture layout for the four side faces of a square pyramid.
    Every side face is a triangle whose three UV vertices occupy six
    consecutive slots of a flat buffer: apex (u, v), first base vertex (u, v),
    second base vertex (u, v). The apex of every face goes to the image centre
    and the two base vertices of face f go to two midpoints of the image's
    sides, one quarter turn apart, taken from a constant table.

    This module holds the pure part: the table, the value of every slot of the
    scratch buffer after the face loop, and `Remapped`, the whole buffer after
    the remap, as a function of the buffer before it. */
module UvLayout {

  /** A texture coordinate. */
  datatype Uv = Uv(u: real, v: real)

  /** Where every face's apex is mapped. */
  const UvCenter: Uv := Uv(0.5, 0.5)

  /** Number of side faces the table covers. */
  const FaceCount: nat := 4

  /** Three vertices of two coordinates each. */
  const SlotsPerFace: nat := 6

  /** Slots written by the face loop: 24. */
  const NetSlots: nat := FaceCount * SlotsPerFace

  /** Per face: [first base u, first base v, second base u, second base v]. */
  const TriangleBases: seq<seq<real>> := [
    [0.0, 0.5, 0.5, 0.0],
    [0.5, 0.0, 1.0, 0.5],
    [1.0, 0.5, 0.5, 1.0],
    [0.5, 1.0, 0.0, 0.5]
  ]

  /** Face `face`'s first base corner: the midpoint of image side `face`. */
  function FirstBase(face: nat): (p: Uv)
    requires face < FaceCount
    ensures p == Midpoint(SideAt(face))
  {
    Uv(TriangleBases[face][0], TriangleBases[face][1])
  }

  /** Face `face`'s second base corner: the midpoint of the next side. */
  function SecondBase(face: nat): (p: Uv)
    requires face < FaceCount
    ensures p == Midpoint(SideAt(face + 1))
  {
    Uv(TriangleBases[face][2], TriangleBases[face][3])
  }

  /** The value the face loop writes at offset `k` of face `face`'s block. */
  function FaceSlot(face: nat, k: nat): (x: real)
    requires face < FaceCount && k < SlotsPerFace
    ensures 0.0 <= x <= 1.0
    ensures k < 2 ==> x == 0.5
  {
    if k == 0 then UvCenter.u
    else if k == 1 then UvCenter.v
    else TriangleBases[face][k - 2]
  }

  /** The value of scratch slot `i` once the face loop is done: the scratch
      buffer starts zero-filled and only its first 24 slots are written. */
  function NetSlot(i: nat): (x: real)
    ensures 0.0 <= x <= 1.0
    ensures NetSlots <= i ==> x == 0.0
  {
    if i < NetSlots then FaceSlot(i / SlotsPerFace, i % SlotsPerFace) else 0.0
  }

  /** The scratch buffer of length `len` after the face loop; writes at or
      past `len` are dropped, as a typed array drops them. */
  function NetLayout(len: nat): (r: seq<real>)
    ensures |r| == len
    ensures forall i :: 0 <= i < len ==> r[i] == NetSlot(i)
  {
    seq(len, i requires 0 <= i < len => NetSlot(i))
  }

  function Min(a: int, b: int): int
  {
    if a <= b then a else b
  }

  /** The copy loop: the first min(|src|, |dst|) slots of `dst` take the
      values of `src`, the rest keep their own. */
  function CopyPrefix(dst: seq<real>, src: seq<real>): (r: seq<real>)
    ensures |r| == |dst|
    ensures forall i :: 0 <= i < |dst| && i < |src| ==> r[i] == src[i]
    ensures forall i :: |src| <= i < |dst| ==> r[i] == dst[i]
  {
    var n := Min(|src|, |dst|);
    seq(|dst|, i requires 0 <= i < |dst| => if i < n then src[i] else dst[i])
  }

  /** A store into a typed array: an index at or past the end is ignored. */
  function Store(s: seq<real>, index: nat, value: real): (r: seq<real>)
    ensures |r| == |s|
    ensures forall j :: 0 <= j < |s| ==> r[j] == if j == index then value else s[j]
  {
    if index < |s| then s[index := value] else s
  }

  /** One pass of the face loop, as the six stores it makes in order: the
      apex, then the face's table row. */
  function WriteFaceStores(s: seq<real>, face: nat): seq<real>
    requires face < FaceCount
  {
    var b := face * SlotsPerFace;
    var row := TriangleBases[face];
    Store(Store(Store(Store(Store(Store(s,
      b, UvCenter.u), b + 1, UvCenter.v),
      b + 2, row[0]), b + 3, row[1]),
      b + 4, row[2]), b + 5, row[3])
  }

  /** One pass writes the six slots of the face's block that fit and leaves
      every other slot as it was. */
  lemma WriteFaceStoresAt(s: seq<real>, face: nat)
    requires face < FaceCount
    ensures |WriteFaceStores(s, face)| == |s|
    ensures forall j :: 0 <= j < |s| ==>
      WriteFaceStores(s, face)[j] ==
        if face * SlotsPerFace <= j < (face + 1) * SlotsPerFace then NetSlot(j) else s[j]
  {
    forall j | 0 <= j < |s| && face * SlotsPerFace <= j < (face + 1) * SlotsPerFace
      ensures NetSlot(j) == FaceSlot(face, j - face * SlotsPerFace)
    {
      NetSlotInBlock(face, j - face * SlotsPerFace);
    }
  }

  /** The buffer after the first `faces` passes of the face loop. */
  function FaceLoop(s: seq<real>, faces: nat): seq<real>
    requires faces <= FaceCount
  {
    if faces == 0 then s else WriteFaceStores(FaceLoop(s, faces - 1), faces - 1)
  }

  /** A zero-filled buffer, as a freshly allocated typed array is. */
  function Zeros(len: nat): seq<real>
  {
    seq(len, _ => 0.0)
  }

  /** Starting from zeros, the first `faces` passes leave the net value in
      every slot of their blocks that fits and zero everywhere else. */
  lemma {:induction false} FaceLoopFromZeros(len: nat, faces: nat)
    requires faces <= FaceCount
    ensures |FaceLoop(Zeros(len), faces)| == len
    ensures forall j :: 0 <= j < len ==>
      FaceLoop(Zeros(len), faces)[j] == if j < faces * SlotsPerFace then NetSlot(j) else 0.0
  {
    if faces > 0 {
      FaceLoopFromZeros(len, faces - 1);
      WriteFaceStoresAt(FaceLoop(Zeros(len), faces - 1), faces - 1);
    }
  }

  /** The four passes of the face loop over a zero-filled buffer produce
      exactly the net layout. */
  lemma FaceLoopIsNetLayout(len: nat)
    ensures FaceLoop(Zeros(len), FaceCount) == NetLayout(len)
  {
    FaceLoopFromZeros(len, FaceCount);
  }

  /** The UV buffer after the remap, given the buffer before it: same
      length, and every slot holds the net value whatever it held before. */
  function Remapped(prior: seq<real>): (r: seq<real>)
    ensures |r| == |prior|
    ensures forall i :: 0 <= i < |r| ==> r[i] == NetSlot(i)
  {
    CopyPrefix(prior, NetLayout(|prior|))
  }

  /** A slot of face `face`'s block holds that face's table entry. */
  lemma NetSlotInBlock(face: nat, k: nat)
    requires face < FaceCount && k < SlotsPerFace
    ensures NetSlot(face * SlotsPerFace + k) == FaceSlot(face, k)
  {
    var i := face * SlotsPerFace + k;
    assert i / SlotsPerFace == face && i % SlotsPerFace == k;
  }

  /** Every face whose apex slots fit in the buffer has its apex at the
      image centre. */
  lemma ApexAtCenter(prior: seq<real>, face: nat)
    requires face < FaceCount && face * SlotsPerFace + 1 < |prior|
    ensures var r := Remapped(prior);
      Uv(r[face * SlotsPerFace], r[face * SlotsPerFace + 1]) == UvCenter
  {
    NetSlotInBlock(face, 0);
    NetSlotInBlock(face, 1);
  }

  /** Every face whose block fits in the buffer has its two base vertices at
      the table's two corners for that face. */
  lemma BasesFromTable(prior: seq<real>, face: nat)
    requires face < FaceCount && face * SlotsPerFace + 5 < |prior|
    ensures var r := Remapped(prior); var b := face * SlotsPerFace;
      Uv(r[b + 2], r[b + 3]) == FirstBase(face) && Uv(r[b + 4], r[b + 5]) == SecondBase(face)
  {
    NetSlotInBlock(face, 2);
    NetSlotInBlock(face, 3);
    NetSlotInBlock(face, 4);
    NetSlotInBlock(face, 5);
  }

  /** Slots past the four side faces end up zero: their prior values are
      not kept. */
  lemma TailZeroed(prior: seq<real>, i: nat)
    requires NetSlots <= i < |prior|
    ensures Remapped(prior)[i] == 0.0
  {
  }

  /** A buffer shorter than 24 slots receives the start of the net layout,
      and the rest of the layout is dropped. */
  lemma ShortBufferGetsPrefix(prior: seq<real>)
    requires |prior| <= NetSlots
    ensures Remapped(prior) == NetLayout(NetSlots)[..|prior|]
  {
  }

  /** The result depends only on the buffer's length. */
  lemma OnlyLengthMatters(s: seq<real>, t: seq<real>)
    requires |s| == |t|
    ensures Remapped(s) == Remapped(t)
  {
  }

  /** Remapping a remapped buffer changes nothing. */
  lemma RemapIdempotent(prior: seq<real>)
    ensures Remapped(Remapped(prior)) == Remapped(prior)
  {
    OnlyLengthMatters(Remapped(prior), prior);
  }

  /** The midpoints of the image's four sides, in the order the faces go
      round: u = 0, v = 0, u = 1, v = 1. */
  datatype Side = MinU | MinV | MaxU | MaxV

  function SideAt(n: nat): Side
  {
    match n % 4
    case 0 => MinU
    case 1 => MinV
    case 2 => MaxU
    case _ => MaxV
  }

  function Midpoint(side: Side): Uv
  {
    match side
    case MinU => Uv(0.0, 0.5)
    case MinV => Uv(0.5, 0.0)
    case MaxU => Uv(1.0, 0.5)
    case MaxV => Uv(0.5, 1.0)
  }

  /** Adjacent faces share a corner: where face f's base edge ends, face
      f + 1's begins, and face 3 closes the loop back onto face 0. */
  lemma AdjacentFacesShareCorner(face: nat)
    requires face < FaceCount
    ensures SecondBase(face) == FirstBase((face + 1) % FaceCount)
  {
  }

  /** A quarter turn of the image about its centre. */
  function QuarterTurn(p: Uv): Uv
  {
    Uv(UvCenter.u - (p.v - UvCenter.v), UvCenter.v + (p.u - UvCenter.u))
  }

  /** Twice the signed area of the UV triangle (a, b, c). */
  function Cross(a: Uv, b: Uv, c: Uv): real
  {
    (b.u - a.u) * (c.v - a.v) - (b.v - a.v) * (c.u - a.u)
  }

  /** Each face's UV triangle is its first base corner turned a quarter
      about the centre, so all four triangles have the same shape, the same
      winding and area 1/8 of the image. */
  lemma FacesAreQuarterTurns(face: nat)
    requires face < FaceCount
    ensures SecondBase(face) == QuarterTurn(FirstBase(face))
    ensures Cross(UvCenter, FirstBase(face), SecondBase(face)) == 0.25
  {
  }
}
