/**
 * The meaning of `Model.fromOBJ` as functions: what each line does to the
 * raw pools, and what each face reference contributes to the output arrays.
 * The imperative parser in module ObjModel is proved equal to `ParseObj`.
 */
module ObjSpec {
  import opened Wrappers
  import opened ObjText

  /** Why a parse throws (Kotlin exceptions of different classes). */
  datatype ParseError =
    | UnrecognizedCommand(line: string)    // the `else` branch of the command dispatch
    | BadNumber(token: string)             // `toFloat()` / `toInt()` threw NumberFormatException
    | MalformedReference(reference: string) // fewer than three '/'-separated fields
    | IndexOutOfRange(reference: string)    // a pool read before the start or past the end

  /** The number conversions `String.toFloat()` and `String.toInt()`, which
      the model does not look inside: `None` is a thrown NumberFormatException. */
  datatype Conversions = Conversions(toFloat: string -> Option<real>, toInt: string -> Option<int>)

  /** The parser's growable pools: flat floats, and the triangulated face references. */
  datatype Pools = Pools(vertices: seq<real>, normals: seq<real>, textures: seq<real>, faces: seq<string>)

  /** The three lock-step output arrays of a `Model`. */
  datatype Mesh = Mesh(positions: seq<real>, normals: seq<real>, textures: seq<real>)

  /** What one face reference copies into each output array. */
  datatype Corner = Corner(position: seq<real>, texture: seq<real>, normal: seq<real>)

  const EmptyPools := Pools([], [], [], [])

  /** Commands the parser accepts and does nothing with. */
  const IgnoredCommands: set<string> := {"mtllib", "usemtl", "g", "s", "o"}

  /** A line's tokens: trimmed, then split on every single space. */
  function Tokens(line: string): (r: seq<string>)
    ensures |r| >= 1
  {
    Split(Trim(line), ' ')
  }

  function Command(line: string): string {
    Tokens(line)[0]
  }

  function Arguments(line: string): seq<string> {
    Tokens(line)[1..]
  }

  /** The command dispatch of the parser, as a closed set of cases. */
  datatype CommandKind = NoOp | Vertex | Normal | TexCoord | Face | Unknown

  /** Blank lines and a bare "#" token do nothing; mtllib, usemtl, g, s and o
      are accepted and ignored; every other command is unknown. */
  function Classify(cmd: string): CommandKind {
    if cmd == "" || cmd == "#" || cmd in IgnoredCommands then NoOp
    else if cmd == "v" then Vertex
    else if cmd == "vn" then Normal
    else if cmd == "vt" then TexCoord
    else if cmd == "f" then Face
    else Unknown
  }

  /** Which tokens select which case of the dispatch. */
  lemma ClassifyCases(cmd: string)
    ensures Classify(cmd) == NoOp <==> cmd == "" || cmd == "#" || cmd in IgnoredCommands
    ensures Classify(cmd) == Vertex <==> cmd == "v"
    ensures Classify(cmd) == Normal <==> cmd == "vn"
    ensures Classify(cmd) == TexCoord <==> cmd == "vt"
    ensures Classify(cmd) == Face <==> cmd == "f"
    ensures Classify(cmd) == Unknown <==>
      !(cmd in {"", "#", "v", "vn", "vt", "f"} || cmd in IgnoredCommands)
  {
  }

  /** Converts every token, in order; the error is the first token that does not convert. */
  function Convert<T>(tokens: seq<string>, parse: string -> Option<T>): (r: Result<seq<T>, string>)
    ensures r.Ok? ==> |r.value| == |tokens|
  {
    if |tokens| == 0 then Ok([])
    else
      var init := tokens[..|tokens| - 1];
      match Convert(init, parse)
      case Err(t) => Err(t)
      case Ok(xs) =>
        match parse(tokens[|tokens| - 1])
        case None => Err(tokens[|tokens| - 1])
        case Some(x) => Ok(xs + [x])
  }

  /** The references one `f` line adds: a triangle as given, a quad as the
      fan 0,1,2, 2,3,0, and nothing for any other number of arguments. */
  function Triangulate(args: seq<string>): (r: seq<string>)
    ensures |r| % 3 == 0
    ensures forall x :: x in r ==> x in args
  {
    if |args| == 3 then [args[0], args[1], args[2]]
    else if |args| == 4 then [args[0], args[1], args[2], args[2], args[3], args[0]]
    else []
  }

  /** What one line does to the pools. */
  function Step(p: Pools, line: string, conv: Conversions): Result<Pools, ParseError> {
    var args := Arguments(line);
    match Classify(Command(line))
    case NoOp => Ok(p)
    case Vertex => AppendTo(p, Vertex, Convert(args, conv.toFloat))
    case Normal => AppendTo(p, Normal, Convert(args, conv.toFloat))
    case TexCoord => AppendTo(p, TexCoord, Convert(args, conv.toFloat))
    case Face => Ok(p.(faces := p.faces + Triangulate(args)))
    case Unknown => Err(UnrecognizedCommand(line))
  }

  /** The converted arguments of a v, vn or vt line appended to that command's pool. */
  function AppendTo(p: Pools, kind: CommandKind, xs: Result<seq<real>, string>): Result<Pools, ParseError>
    requires kind in {Vertex, Normal, TexCoord}
  {
    match xs
    case Err(t) => Err(BadNumber(t))
    case Ok(xs) =>
      match kind
      case Vertex => Ok(p.(vertices := p.vertices + xs))
      case Normal => Ok(p.(normals := p.normals + xs))
      case TexCoord => Ok(p.(textures := p.textures + xs))
  }

  /** The first phase: every line applied in order; the first error stops the parse. */
  function Collect(lines: seq<string>, conv: Conversions): Result<Pools, ParseError> {
    if |lines| == 0 then Ok(EmptyPools)
    else
      match Collect(lines[..|lines| - 1], conv)
      case Err(e) => Err(e)
      case Ok(p) => Step(p, lines[|lines| - 1], conv)
  }

  /** Every token converts, in order, or the first one that does not is reported. */
  lemma {:induction false} ConvertSpec<T>(tokens: seq<string>, parse: string -> Option<T>)
    ensures var r := Convert(tokens, parse);
      && (r.Ok? <==> forall i :: 0 <= i < |tokens| ==> parse(tokens[i]).Some?)
      && (r.Ok? ==> |r.value| == |tokens| && forall i :: 0 <= i < |tokens| ==> parse(tokens[i]) == Some(r.value[i]))
      && (r.Err? ==> exists i :: 0 <= i < |tokens| && parse(tokens[i]).None? && r.error == tokens[i]
                                 && forall j :: 0 <= j < i ==> parse(tokens[j]).Some?)
  {
    if |tokens| > 0 {
      var init := tokens[..|tokens| - 1];
      ConvertSpec(init, parse);
      assert forall i :: 0 <= i < |init| ==> tokens[i] == init[i];
    }
  }

  /** Once a prefix of the tokens fails to convert, the whole conversion fails the same way. */
  lemma {:induction false} ConvertErrorPersists<T>(tokens: seq<string>, j: nat, parse: string -> Option<T>)
    requires j <= |tokens|
    requires Convert(tokens[..j], parse).Err?
    ensures Convert(tokens, parse) == Convert(tokens[..j], parse)
    decreases |tokens| - j
  {
    if j < |tokens| {
      assert tokens[..j + 1][..j] == tokens[..j];
      ConvertErrorPersists(tokens, j + 1, parse);
    } else {
      assert tokens[..j] == tokens;
    }
  }

  /** `face.split("/").map { it.toInt() }`: every field converted, in
      order (the source then subtracts 1 to make them 0-based); the first
      three are the position, texture and normal record numbers. */
  function Fields(reference: string, conv: Conversions): (r: Result<seq<int>, ParseError>)
    ensures r.Ok? ==> |r.value| == |Split(reference, '/')| >= 1
  {
    match Convert(Split(reference, '/'), conv.toInt)
    case Err(t) => Err(BadNumber(t))
    case Ok(ns) => Ok(ns)
  }

  /** The `width` floats of record `index` (0-based) of a flat pool, if they are all there. */
  function Fetch(pool: seq<real>, index: int, width: nat): Option<seq<real>> {
    if 0 <= index && width * index + width <= |pool|
    then Some(pool[width * index .. width * index + width]) else None
  }

  /** One face reference: its fields converted first, then the records they name. */
  function CornerOf(reference: string, p: Pools, conv: Conversions): Result<Corner, ParseError> {
    match Fields(reference, conv)
    case Err(e) => Err(e)
    case Ok(parts) => CornerAt(reference, parts, p)
  }

  /** The records named by converted fields (1-based): three position
      floats, two texture floats with v flipped to 1 - v, three normal
      floats, read in that order; a missing field is noticed only when its
      pool is about to be read. */
  function CornerAt(reference: string, parts: seq<int>, p: Pools): Result<Corner, ParseError>
    requires |parts| >= 1
  {
    match Fetch(p.vertices, parts[0] - 1, 3)
    case None => Err(IndexOutOfRange(reference))
    case Some(pos) =>
      if |parts| < 2 then Err(MalformedReference(reference))
      else
        match Fetch(p.textures, parts[1] - 1, 2)
        case None => Err(IndexOutOfRange(reference))
        case Some(uv) =>
          if |parts| < 3 then Err(MalformedReference(reference))
          else
            match Fetch(p.normals, parts[2] - 1, 3)
            case None => Err(IndexOutOfRange(reference))
            case Some(n) => Ok(Corner(pos, [uv[0], 1.0 - uv[1]], n))
  }

  /** The corner of every reference, in order. */
  function Corners(refs: seq<string>, p: Pools, conv: Conversions): seq<Result<Corner, ParseError>> {
    seq(|refs|, i requires 0 <= i < |refs| => CornerOf(refs[i], p, conv))
  }

  /** Corners written one after another into one mesh; the first error stops. */
  function Assemble(cs: seq<Result<Corner, ParseError>>): Result<Mesh, ParseError> {
    if |cs| == 0 then Ok(Mesh([], [], []))
    else
      match Assemble(cs[..|cs| - 1])
      case Err(e) => Err(e)
      case Ok(m) =>
        match cs[|cs| - 1]
        case Err(e) => Err(e)
        case Ok(c) => Ok(Extend(m, c))
  }

  /** The second phase: every reference expanded in order; the first error stops the parse. */
  function ExpandAll(refs: seq<string>, p: Pools, conv: Conversions): Result<Mesh, ParseError> {
    Assemble(Corners(refs, p, conv))
  }

  /** The mesh with one more corner written at the end of each array. */
  function Extend(m: Mesh, c: Corner): Mesh {
    Mesh(m.positions + c.position, m.normals + c.normal, m.textures + c.texture)
  }

  /** `Model.fromOBJ` as a whole. */
  function ParseObj(obj: string, conv: Conversions): Result<Mesh, ParseError> {
    match Collect(Lines(obj), conv)
    case Err(e) => Err(e)
    case Ok(p) => ExpandAll(p.faces, p, conv)
  }
}
