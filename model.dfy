/**
 * `Model` and `Model.fromOBJ` as the source writes them: the pools grow in
 * place line by line, then three preallocated arrays are filled by one loop
 * that advances a write counter per array. Each method is proved equal to
 * its specification in ObjSpec.
 */
module ObjModel {
  import opened Wrappers
  import opened ObjText
  import opened ObjSpec
  import ObjProperties

  /** The parsed mesh: three flat attribute arrays in lock-step, never
      written after construction, and the number of vertices to draw. */
  class Model {
    const positions: array<real>
    const normals: array<real>
    const textures: array<real>
    /** The vertex count handed to the triangle-list draw call. */
    const numFaces: int

    /** The arrays are in lock-step: `numFaces` vertices of three position
        floats, three normal floats and two texture floats each. */
    ghost predicate Valid() {
      3 * numFaces == positions.Length == normals.Length && 2 * numFaces == textures.Length
    }

    /** The size checks of the `init` block, in their corrected form: three
        floats per vertex in positions and normals, two in textures. */
    constructor (positions: array<real>, normals: array<real>, textures: array<real>)
      requires positions.Length == normals.Length
      requires 3 * textures.Length == 2 * positions.Length
      ensures this.positions == positions && this.normals == normals && this.textures == textures
      ensures 3 * numFaces == positions.Length == normals.Length && 2 * numFaces == textures.Length
      ensures Valid()
    {
      this.positions := positions;
      this.normals := normals;
      this.textures := textures;
      numFaces := positions.Length / 3;
    }

    function Contents(): Mesh
      reads positions, normals, textures
    {
      Mesh(positions[..], normals[..], textures[..])
    }
  }

  /** `Model.fromOBJ`: a model exactly when the text parses, holding the
      parsed arrays, with one vertex to draw per face reference. */
  method FromObj(obj: string, conv: Conversions) returns (r: Result<Model, ParseError>)
    ensures r.Err? <==> ParseObj(obj, conv).Err?
    ensures r.Err? ==> ParseObj(obj, conv) == Err(r.error)
    ensures r.Ok? ==> ParseObj(obj, conv) == Ok(r.value.Contents())
    ensures r.Ok? ==> r.value.Valid()
    ensures r.Ok? ==> r.value.numFaces == 3 * ObjProperties.FaceLines(Lines(obj), 3)
                                          + 6 * ObjProperties.FaceLines(Lines(obj), 4)
  {
    var lines := Lines(obj);
    var pools := ReadPools(lines, conv);
    if pools.Err? {
      return Err(pools.error);
    }
    ObjProperties.FaceReferenceCount(lines, conv);
    r := Expand(pools.value, conv);
  }

  /** The line dispatch: every line applied to the growing pools in order. */
  method ReadPools(lines: seq<string>, conv: Conversions) returns (r: Result<Pools, ParseError>)
    ensures r == Collect(lines, conv)
  {
    var pools := EmptyPools;
    for k := 0 to |lines|
      invariant Collect(lines[..k], conv) == Ok(pools)
    {
      var next := ReadLine(pools, lines[k], conv);
      ObjProperties.CollectNext(lines, k, conv);
      if next.Err? {
        ObjProperties.CollectErrorPersists(lines, k + 1, conv);
        return Err(next.error);
      }
      pools := next.value;
    }
    assert lines[..|lines|] == lines;
    return Ok(pools);
  }

  /** One line: trimmed, split on single spaces, and dispatched on its first token. */
  method ReadLine(p: Pools, line: string, conv: Conversions) returns (r: Result<Pools, ParseError>)
    ensures r == Step(p, line, conv)
  {
    var tokens := Split(Trim(line), ' ');
    var cmd, args := tokens[0], tokens[1..];
    assert cmd == Command(line) && args == Arguments(line);
    var vertices, normals, textures, faces := p.vertices, p.normals, p.textures, p.faces;
    match Classify(cmd) {
      case NoOp =>
      case Vertex =>
        var grown := AppendFloats(vertices, args, conv);
        if grown.Err? {
          return Err(grown.error);
        }
        vertices := grown.value;
      case Normal =>
        var grown := AppendFloats(normals, args, conv);
        if grown.Err? {
          return Err(grown.error);
        }
        normals := grown.value;
      case TexCoord =>
        var grown := AppendFloats(textures, args, conv);
        if grown.Err? {
          return Err(grown.error);
        }
        textures := grown.value;
      case Face =>
        if |args| == 3 {
          faces := faces + [args[0], args[1], args[2]];
        } else if |args| == 4 {
          faces := faces + [args[0], args[1], args[2], args[2], args[3], args[0]];
        } else {
          assert faces + Triangulate(args) == faces;
        }
      case Unknown =>
        return Err(UnrecognizedCommand(line));
    }
    r := Ok(Pools(vertices, normals, textures, faces));
  }

  /** `args.forEach { pool.add(it.toFloat()) }`: the converted arguments
      appended in order, or the first one that does not convert. */
  method AppendFloats(pool: seq<real>, args: seq<string>, conv: Conversions) returns (r: Result<seq<real>, ParseError>)
    ensures Convert(args, conv.toFloat).Ok? ==> r == Ok(pool + Convert(args, conv.toFloat).value)
    ensures Convert(args, conv.toFloat).Err? ==> r == Err(BadNumber(Convert(args, conv.toFloat).error))
  {
    var grown := pool;
    for i := 0 to |args|
      invariant Convert(args[..i], conv.toFloat).Ok?
      invariant grown == pool + Convert(args[..i], conv.toFloat).value
    {
      var x := conv.toFloat(args[i]);
      assert args[..i + 1][..i] == args[..i];
      if x.None? {
        ConvertErrorPersists(args, i + 1, conv.toFloat);
        return Err(BadNumber(args[i]));
      }
      grown := grown + [x.value];
    }
    assert args[..|args|] == args;
    return Ok(grown);
  }

  /** The expansion: three arrays sized for the face references are
      filled, and on success they become the model. */
  method Expand(p: Pools, conv: Conversions) returns (r: Result<Model, ParseError>)
    ensures r.Err? <==> ExpandAll(p.faces, p, conv).Err?
    ensures r.Err? ==> ExpandAll(p.faces, p, conv) == Err(r.error)
    ensures r.Ok? ==> ExpandAll(p.faces, p, conv) == Ok(r.value.Contents())
    ensures r.Ok? ==> r.value.Valid()
    ensures r.Ok? ==> r.value.numFaces == |p.faces|
  {
    var positions := new real[|p.faces| * 3];
    var normals := new real[|p.faces| * 3];
    var textures := new real[|p.faces| * 2];
    var failure := Fill(p, conv, positions, normals, textures);
    if failure.Some? {
      return Err(failure.value);
    }
    var model := new Model(positions, normals, textures);
    return Ok(model);
  }

  /** The expansion loop: the k-th face reference fills slots 3k..3k+2 of
      positions and normals and 2k..2k+1 of textures; on success every
      write counter has reached the end of the array it writes. */
  method Fill(p: Pools, conv: Conversions, positions: array<real>, normals: array<real>, textures: array<real>)
    returns (failure: Option<ParseError>)
    requires positions.Length == normals.Length == 3 * |p.faces| && textures.Length == 2 * |p.faces|
    requires positions != textures && textures != normals && positions != normals
    modifies positions, normals, textures
    ensures failure.Some? <==> ExpandAll(p.faces, p, conv).Err?
    ensures failure.Some? ==> ExpandAll(p.faces, p, conv) == Err(failure.value)
    ensures failure.None? ==> ExpandAll(p.faces, p, conv) == Ok(Mesh(positions[..], normals[..], textures[..]))
  {
    var faces := p.faces;
    var pi, ti, ni := 0, 0, 0;
    ghost var cs: seq<Result<Corner, ParseError>> := [];
    for k := 0 to |faces|
      invariant pi == 3 * k && ti == 2 * k && ni == 3 * k && |cs| == k
      invariant forall i {:trigger CornerOf(faces[i], p, conv)} :: 0 <= i < k ==> cs[i] == CornerOf(faces[i], p, conv)
      invariant Assemble(cs) == Ok(Written(positions, normals, textures, pi, ni, ti))
    {
      failure := CopyCorner(faces[k], p, conv, positions, normals, textures, pi, ni, ti);
      ghost var c := CornerOf(faces[k], p, conv);
      ObjProperties.AssembleSnoc(cs, c);
      cs := cs + [c];
      if failure.Some? {
        ObjProperties.CornersPrefix(faces, p, conv, cs);
        ObjProperties.AssembleErrorPersists(Corners(faces, p, conv), k + 1);
        return;
      }
      pi, ti, ni := pi + 3, ti + 2, ni + 3;
    }
    ObjProperties.CornersPrefix(faces, p, conv, cs);
    assert Corners(faces, p, conv)[..|faces|] == Corners(faces, p, conv);
    assert pi == positions.Length && ti == textures.Length && ni == normals.Length;
    assert positions[..pi] == positions[..] && textures[..ti] == textures[..] && normals[..ni] == normals[..];
    return None;
  }

  /** The part of the three output arrays written so far. */
  ghost function Written(positions: array<real>, normals: array<real>, textures: array<real>,
                         pi: nat, ni: nat, ti: nat): Mesh
    requires pi <= positions.Length && ni <= normals.Length && ti <= textures.Length
    reads positions, normals, textures
  {
    Mesh(positions[..pi], normals[..ni], textures[..ti])
  }

  /** The body of the expansion loop for one reference: three position
      floats at `pi`, the texture pair with v flipped at `ti`, three normal
      floats at `ni`, each after checking that its field and record exist. */
  method CopyCorner(face: string, p: Pools, conv: Conversions,
                    positions: array<real>, normals: array<real>, textures: array<real>,
                    pi: nat, ni: nat, ti: nat)
    returns (failure: Option<ParseError>)
    requires pi + 3 <= positions.Length && ni + 3 <= normals.Length && ti + 2 <= textures.Length
    requires positions != textures && textures != normals && positions != normals
    modifies positions, normals, textures
    ensures failure.Some? <==> CornerOf(face, p, conv).Err?
    ensures failure.Some? ==> CornerOf(face, p, conv) == Err(failure.value)
    ensures failure.None? ==>
      Written(positions, normals, textures, pi + 3, ni + 3, ti + 2)
      == Extend(old(Written(positions, normals, textures, pi, ni, ti)), CornerOf(face, p, conv).value)
    ensures positions[pi + 3..] == old(positions[pi + 3..])
    ensures textures[ti + 2..] == old(textures[ti + 2..])
    ensures normals[ni + 3..] == old(normals[ni + 3..])
  {
    var parts := Fields(face, conv);
    if parts.Err? {
      return Some(parts.error);
    }
    failure := CopyFields(face, parts.value, p, positions, normals, textures, pi, ni, ti);
  }

  /** The copies for one reference once its fields are converted. */
  method CopyFields(face: string, parts: seq<int>, p: Pools,
                    positions: array<real>, normals: array<real>, textures: array<real>,
                    pi: nat, ni: nat, ti: nat)
    returns (failure: Option<ParseError>)
    requires |parts| >= 1
    requires pi + 3 <= positions.Length && ni + 3 <= normals.Length && ti + 2 <= textures.Length
    requires positions != textures && textures != normals && positions != normals
    modifies positions, normals, textures
    ensures failure.Some? <==> CornerAt(face, parts, p).Err?
    ensures failure.Some? ==> CornerAt(face, parts, p) == Err(failure.value)
    ensures failure.None? ==>
      && positions[..pi + 3] == old(positions[..pi]) + CornerAt(face, parts, p).value.position
      && textures[..ti + 2] == old(textures[..ti]) + CornerAt(face, parts, p).value.texture
      && normals[..ni + 3] == old(normals[..ni]) + CornerAt(face, parts, p).value.normal
    ensures positions[pi + 3..] == old(positions[pi + 3..])
    ensures textures[ti + 2..] == old(textures[ti + 2..])
    ensures normals[ni + 3..] == old(normals[ni + 3..])
  {
    var index := 3 * (parts[0] - 1);
    if index < 0 || |p.vertices| < index + 3 {
      return Some(IndexOutOfRange(face));
    }
    CopyTriple(positions, pi, p.vertices, index);
    if |parts| < 2 {
      return Some(MalformedReference(face));
    }
    index := 2 * (parts[1] - 1);
    if index < 0 || |p.textures| < index + 2 {
      return Some(IndexOutOfRange(face));
    }
    CopyFlipped(textures, ti, p.textures, index);
    if |parts| < 3 {
      return Some(MalformedReference(face));
    }
    index := 3 * (parts[2] - 1);
    if index < 0 || |p.normals| < index + 3 {
      return Some(IndexOutOfRange(face));
    }
    CopyTriple(normals, ni, p.normals, index);
    return None;
  }

  /** `dst[at++] = pool[index++]`, three times: one position or normal record. */
  method CopyTriple(dst: array<real>, at: nat, pool: seq<real>, index: nat)
    requires at + 3 <= dst.Length && index + 3 <= |pool|
    modifies dst
    ensures dst[..at + 3] == old(dst[..at]) + pool[index .. index + 3]
    ensures dst[at + 3..] == old(dst[at + 3..])
  {
    dst[at] := pool[index];
    dst[at + 1] := pool[index + 1];
    dst[at + 2] := pool[index + 2];
    assert dst[..at] == old(dst[..at]);
  }

  /** One texture record with v flipped: `dst[at] = u`, `dst[at + 1] = 1 - v`. */
  method CopyFlipped(dst: array<real>, at: nat, pool: seq<real>, index: nat)
    requires at + 2 <= dst.Length && index + 2 <= |pool|
    modifies dst
    ensures dst[..at + 2] == old(dst[..at]) + [pool[index], 1.0 - pool[index + 1]]
    ensures dst[at + 2..] == old(dst[at + 2..])
  {
    dst[at] := pool[index];
    dst[at + 1] := 1.0 - pool[index + 1];
    assert dst[..at] == old(dst[..at]);
  }
}
