/** The imperative remap: a geometry's UV attribute holds a flat buffer of
    coordinates and a dirty flag; the remap fills a zeroed scratch buffer
    face by face, copies it over the attribute's buffer and raises the flag. */
module UvRemap {
  import opened UvLayout

  /** A geometry's UV attribute: the coordinate buffer and the flag that
      tells the renderer to upload it again. */
  class UvAttribute {
    const uvs: array<real>
    var needsUpdate: bool

    constructor (uvs: array<real>)
      ensures this.uvs == uvs && !needsUpdate
    {
      this.uvs := uvs;
      needsUpdate := false;
    }
  }

  /** The part of a geometry the remap touches: its UV attribute. */
  class Geometry {
    const uv: UvAttribute

    constructor (uv: UvAttribute)
      ensures this.uv == uv
    {
      this.uv := uv;
    }
  }

  /** A store into a typed array: an index at or past the end is ignored. */
  method StoreIfInRange(a: array<real>, index: nat, value: real)
    modifies a
    ensures a[..] == Store(old(a[..]), index, value)
  {
    if index < a.Length {
      a[index] := value;
    }
  }

  /** One pass of the face loop: the apex, then the two base vertices from
      the table, into the six slots of the face's block that fit. */
  method WriteFace(newUvs: array<real>, face: nat)
    requires face < FaceCount
    modifies newUvs
    ensures newUvs[..] == WriteFaceStores(old(newUvs[..]), face)
  {
    var baseIndex := face * SlotsPerFace;
    StoreIfInRange(newUvs, baseIndex, UvCenter.u);
    StoreIfInRange(newUvs, baseIndex + 1, UvCenter.v);
    var row := TriangleBases[face];
    StoreIfInRange(newUvs, baseIndex + 2, row[0]);
    StoreIfInRange(newUvs, baseIndex + 3, row[1]);
    StoreIfInRange(newUvs, baseIndex + 4, row[2]);
    StoreIfInRange(newUvs, baseIndex + 5, row[3]);
  }

  /** The scratch buffer: allocated zero-filled at `length`, then filled by
      the face loop. Slots the table does not reach stay zero and table
      entries past the end are dropped. */
  method NetUvs(length: nat) returns (newUvs: array<real>)
    ensures fresh(newUvs)
    ensures newUvs[..] == NetLayout(length)
  {
    newUvs := new real[length](_ => 0.0);
    var face := 0;
    while face < FaceCount
      invariant 0 <= face <= FaceCount
      invariant newUvs[..] == FaceLoop(Zeros(length), face)
    {
      WriteFace(newUvs, face);
      face := face + 1;
    }
    FaceLoopIsNetLayout(length);
  }

  /** Overwrites the geometry's UV buffer with the net layout, marks the
      attribute dirty and returns the same geometry. The aspect ratio is
      accepted and not used. */
  method RemapUVsForContinuousImage(geometry: Geometry, aspectRatio: real) returns (result: Geometry)
    modifies geometry.uv.uvs, geometry.uv`needsUpdate
    ensures result == geometry
    ensures geometry.uv.uvs[..] == Remapped(old(geometry.uv.uvs[..]))
    ensures geometry.uv.needsUpdate
  {
    var uvAttribute := geometry.uv;
    var uvs := uvAttribute.uvs;
    var newUvs := NetUvs(uvs.Length);

    var i := 0;
    var n := Min(newUvs.Length, uvs.Length);
    while i < n
      modifies uvs
      invariant 0 <= i <= n
      invariant forall j :: 0 <= j < i ==> uvs[j] == newUvs[j]
    {
      uvs[i] := newUvs[i];
      i := i + 1;
    }

    uvAttribute.needsUpdate := true;
    result := geometry;
  }
}
