/**
 * What `Model.fromOBJ` promises, proved about the functions of ObjSpec:
 * the per-command effect of a line, the failure cases, the lengths of the
 * output arrays and the content of every output slot.
 */
module ObjProperties {
  import opened Wrappers
  import opened ObjText
  import opened ObjSpec

  // ---------------------------------------------------------------------
  // Phase one: line dispatch
  // ---------------------------------------------------------------------

  /** Once a prefix of the lines fails, the whole parse fails the same way. */
  lemma {:induction false} CollectErrorPersists(lines: seq<string>, j: nat, conv: Conversions)
    requires j <= |lines|
    requires Collect(lines[..j], conv).Err?
    ensures Collect(lines, conv) == Collect(lines[..j], conv)
    decreases |lines| - j
  {
    if j < |lines| {
      assert lines[..j + 1][..j] == lines[..j];
      CollectErrorPersists(lines, j + 1, conv);
    } else {
      assert lines[..j] == lines;
    }
  }

  /** Appending a line to a parse that succeeded so far applies `Step` to its pools. */
  lemma CollectSnoc(lines: seq<string>, line: string, conv: Conversions)
    ensures Collect(lines, conv).Err? ==> Collect(lines + [line], conv) == Collect(lines, conv)
    ensures Collect(lines, conv).Ok? ==>
      Collect(lines + [line], conv) == Step(Collect(lines, conv).value, line, conv)
  {
    assert (lines + [line])[..|lines|] == lines;
  }

  /** The parse of the first k + 1 lines continues that of the first k with line k. */
  lemma CollectNext(lines: seq<string>, k: nat, conv: Conversions)
    requires k < |lines|
    ensures Collect(lines[..k], conv).Ok? ==>
      Collect(lines[..k + 1], conv) == Step(Collect(lines[..k], conv).value, lines[k], conv)
  {
    assert lines[..k + 1][..k] == lines[..k];
  }

  /** Blank lines, a bare "#" and mtllib, usemtl, g, s, o leave every pool as it was. */
  lemma NoOpLineKeepsPools(lines: seq<string>, line: string, conv: Conversions)
    requires Classify(Command(line)) == NoOp
    ensures Collect(lines + [line], conv) == Collect(lines, conv)
  {
    CollectSnoc(lines, line, conv);
  }

  /** v, vn and vt append all their arguments, in order, to their own pool
      and to no other; one argument that does not convert fails the parse. */
  lemma PoolLineAppends(lines: seq<string>, line: string, conv: Conversions, p: Pools)
    requires Collect(lines, conv) == Ok(p)
    requires Classify(Command(line)) in {Vertex, Normal, TexCoord}
    ensures var xs := Convert(Arguments(line), conv.toFloat);
      && (xs.Err? ==> Collect(lines + [line], conv) == Err(BadNumber(xs.error)))
      && (xs.Ok? && Classify(Command(line)) == Vertex ==>
            Collect(lines + [line], conv) == Ok(p.(vertices := p.vertices + xs.value)))
      && (xs.Ok? && Classify(Command(line)) == Normal ==>
            Collect(lines + [line], conv) == Ok(p.(normals := p.normals + xs.value)))
      && (xs.Ok? && Classify(Command(line)) == TexCoord ==>
            Collect(lines + [line], conv) == Ok(p.(textures := p.textures + xs.value)))
  {
    CollectSnoc(lines, line, conv);
  }

  /** An `f` line appends its triangulated references and touches no float pool. */
  lemma FaceLineAppends(lines: seq<string>, line: string, conv: Conversions, p: Pools)
    requires Collect(lines, conv) == Ok(p)
    requires Classify(Command(line)) == Face
    ensures Collect(lines + [line], conv) == Ok(p.(faces := p.faces + Triangulate(Arguments(line))))
  {
    CollectSnoc(lines, line, conv);
  }

  /** A triangle is kept as given; a quad becomes the two triangles
      (a0, a1, a2) and (a2, a3, a0), which share the diagonal a0-a2 and
      together use every corner; any other arity is dropped. */
  lemma TriangulateFan(args: seq<string>)
    ensures |args| == 3 ==> Triangulate(args) == args
    ensures |args| == 4 ==>
      && Triangulate(args)[..3] == [args[0], args[1], args[2]]
      && Triangulate(args)[3..] == [args[2], args[3], args[0]]
      && multiset(Triangulate(args)) == multiset(args) + multiset{args[0], args[2]}
    ensures |args| != 3 && |args| != 4 ==> Triangulate(args) == []
  {
    if |args| == 4 {
      assert args == [args[0], args[1], args[2], args[3]];
    }
  }

  /** A line fails with UnrecognizedCommand exactly when its command is none of the known ones. */
  lemma UnknownCommandStep(p: Pools, line: string, conv: Conversions)
    ensures Step(p, line, conv) == Err(UnrecognizedCommand(line)) <==>
      !(Command(line) in {"", "#", "v", "vn", "vt", "f"} || Command(line) in IgnoredCommands)
  {
  }

  /** A single line with an unknown command anywhere makes the whole parse fail. */
  lemma {:induction false} UnknownCommandRejects(lines: seq<string>, i: nat, conv: Conversions)
    requires i < |lines|
    requires Classify(Command(lines[i])) == Unknown
    ensures Collect(lines, conv).Err?
  {
    assert lines[..i + 1][..i] == lines[..i];
    CollectErrorPersists(lines, i + 1, conv);
  }

  /** A line that is one word with no surrounding whitespace is its own command. */
  lemma OneWordCommand(w: string)
    requires w != [] && ' ' !in w && !IsWhitespace(w[0]) && !IsWhitespace(w[|w| - 1])
    ensures Command(w) == w
  {
    TrimKeeps(w);
    SplitWhole(w, ' ');
  }

  /** A word of two or more characters starting with "#" selects no branch of the dispatch. */
  lemma HashWordUnknown(w: string)
    requires |w| >= 2 && w[0] == '#'
    ensures Classify(w) == Unknown
  {
    assert w != "#" && w !in IgnoredCommands by {
      assert forall c | c in IgnoredCommands :: c[0] != '#';
    }
    ClassifyCases(w);
  }

  /** Only a bare "#" token is a comment: a line such as "#foo" is an unknown command. */
  lemma HashWordIsNotComment(p: Pools, w: string, conv: Conversions)
    requires |w| >= 2 && w[0] == '#' && ' ' !in w && !IsWhitespace(w[|w| - 1])
    ensures Step(p, w, conv) == Err(UnrecognizedCommand(w))
  {
    OneWordCommand(w);
    HashWordUnknown(w);
  }

  /** The split is on one space, so a doubled space yields an empty argument. */
  lemma DoubledSpaceGivesEmptyToken(x: string, y: string)
    requires ' ' !in x && ' ' !in y
    requires y != [] && !IsWhitespace(y[|y| - 1])
    ensures Arguments("v " + x + "  " + y) == [x, "", y]
  {
    var line := "v " + x + "  " + y;
    assert line[0] == 'v' && line[|line| - 1] == y[|y| - 1];
    assert TrimStart(line) == line;
    assert Trim(line) == line;
    var parts := ["v", x, "", y];
    assert parts[1..] == [x, "", y] && parts[1..][1..] == ["", y] && parts[1..][1..][1..] == [y];
    assert Join(["", y], ' ') == [' '] + y;
    assert Join([x, "", y], ' ') == x + [' '] + [' '] + y;
    assert Join(parts, ' ') == line;
    SplitJoin(["v", x, "", y], ' ');
  }

  /** The number of `f` lines with exactly `arity` arguments. */
  function FaceLines(lines: seq<string>, arity: nat): (r: nat)
    ensures r <= |lines|
  {
    if |lines| == 0 then 0
    else
      var last := lines[|lines| - 1];
      FaceLines(lines[..|lines| - 1], arity)
        + (if Classify(Command(last)) == Face && |Arguments(last)| == arity then 1 else 0)
  }

  /** A line adds three references if it is a triangle, six if it is a quad, and none otherwise. */
  lemma StepFaceCount(p: Pools, line: string, conv: Conversions)
    requires Step(p, line, conv).Ok?
    ensures |Step(p, line, conv).value.faces| == |p.faces| +
      (if Classify(Command(line)) == Face && |Arguments(line)| == 3 then 3
       else if Classify(Command(line)) == Face && |Arguments(line)| == 4 then 6
       else 0)
  {
  }

  /** Every triangle line contributes three references and every quad line six. */
  lemma {:induction false} FaceReferenceCount(lines: seq<string>, conv: Conversions)
    requires Collect(lines, conv).Ok?
    ensures |Collect(lines, conv).value.faces| == 3 * FaceLines(lines, 3) + 6 * FaceLines(lines, 4)
  {
    if |lines| > 0 {
      var init := lines[..|lines| - 1];
      FaceReferenceCount(init, conv);
      StepFaceCount(Collect(init, conv).value, lines[|lines| - 1], conv);
    }
  }

  // ---------------------------------------------------------------------
  // Phase two: expansion of the face references
  // ---------------------------------------------------------------------

  /** Assembling one more corner continues the mesh assembled so far, or stops at its error. */
  lemma AssembleSnoc(cs: seq<Result<Corner, ParseError>>, c: Result<Corner, ParseError>)
    ensures Assemble(cs).Ok? && c.Ok? ==> Assemble(cs + [c]) == Ok(Extend(Assemble(cs).value, c.value))
    ensures Assemble(cs).Ok? && c.Err? ==> Assemble(cs + [c]) == Err(c.error)
    ensures Assemble(cs).Err? ==> Assemble(cs + [c]) == Assemble(cs)
  {
    assert (cs + [c])[..|cs|] == cs;
  }

  /** Once a prefix of the corners fails, the whole assembly fails the same way. */
  lemma {:induction false} AssembleErrorPersists(cs: seq<Result<Corner, ParseError>>, j: nat)
    requires j <= |cs|
    requires Assemble(cs[..j]).Err?
    ensures Assemble(cs) == Assemble(cs[..j])
    decreases |cs| - j
  {
    if j < |cs| {
      assert cs[..j + 1][..j] == cs[..j];
      AssembleErrorStep(cs, j);
      AssembleErrorPersists(cs, j + 1);
    } else {
      assert cs[..j] == cs;
    }
  }

  lemma AssembleErrorStep(cs: seq<Result<Corner, ParseError>>, j: nat)
    requires j < |cs|
    requires Assemble(cs[..j]).Err?
    ensures Assemble(cs[..j + 1]) == Assemble(cs[..j])
  {
    assert cs[..j + 1] == cs[..j] + [cs[j]];
    AssembleSnoc(cs[..j], cs[j]);
  }

  /** The assembly fails exactly when some corner failed, and then with the
      error of the first one that did. */
  lemma {:induction false} AssembleFailsIff(cs: seq<Result<Corner, ParseError>>)
    ensures Assemble(cs).Err? <==> exists k :: 0 <= k < |cs| && cs[k].Err?
    ensures Assemble(cs).Err? ==>
      exists k :: 0 <= k < |cs| && cs[k].Err? && cs[k].error == Assemble(cs).error
                  && forall j :: 0 <= j < k ==> cs[j].Ok?
  {
    if |cs| > 0 {
      var init := cs[..|cs| - 1];
      AssembleFailsIff(init);
      if Assemble(init).Err? {
        var k :| 0 <= k < |init| && init[k].Err? && init[k].error == Assemble(init).error
                 && forall j :: 0 <= j < k ==> init[j].Ok?;
        assert cs[k] == init[k];
        assert forall j :: 0 <= j < k ==> cs[j] == init[j];
      } else {
        assert forall j :: 0 <= j < |init| ==> cs[j] == init[j];
      }
    }
  }

  /** Every corner that was found has three position, two texture and three normal floats. */
  ghost predicate Sized(cs: seq<Result<Corner, ParseError>>) {
    forall k :: 0 <= k < |cs| && cs[k].Ok? ==>
      |cs[k].value.position| == 3 && |cs[k].value.texture| == 2 && |cs[k].value.normal| == 3
  }

  /** F corners of the right sizes give 3F position floats, 3F normal floats and 2F texture floats. */
  lemma {:induction false} AssembleLengths(cs: seq<Result<Corner, ParseError>>)
    requires Sized(cs) && Assemble(cs).Ok?
    ensures var m := Assemble(cs).value;
      |m.positions| == 3 * |cs| && |m.normals| == 3 * |cs| && |m.textures| == 2 * |cs|
  {
    if |cs| > 0 {
      var init := cs[..|cs| - 1];
      assert Sized(init) by {
        forall k | 0 <= k < |init| ensures init[k] == cs[k] {}
      }
      AssembleLengths(init);
    }
  }

  /** A successful assembly of a non-empty list is the assembly of all but
      the last corner, extended by the last one. */
  lemma AssembleLast(cs: seq<Result<Corner, ParseError>>)
    requires |cs| > 0 && Assemble(cs).Ok?
    ensures Assemble(cs[..|cs| - 1]).Ok? && cs[|cs| - 1].Ok?
    ensures Assemble(cs).value == Extend(Assemble(cs[..|cs| - 1]).value, cs[|cs| - 1].value)
  {
    var init := cs[..|cs| - 1];
    assert cs == init + [cs[|cs| - 1]];
    AssembleSnoc(init, cs[|cs| - 1]);
  }

  /** Extending a mesh of f corners leaves the slots of corner k < f as they were. */
  lemma ExtendKeepsSlots(m0: Mesh, c: Corner, f: nat, k: nat)
    requires |m0.positions| == 3 * f && |m0.normals| == 3 * f && |m0.textures| == 2 * f
    requires k < f
    ensures var m := Extend(m0, c);
      && m.positions[3 * k .. 3 * k + 3] == m0.positions[3 * k .. 3 * k + 3]
      && m.normals[3 * k .. 3 * k + 3] == m0.normals[3 * k .. 3 * k + 3]
      && m.textures[2 * k .. 2 * k + 2] == m0.textures[2 * k .. 2 * k + 2]
  {
    ConcatSlice(m0.positions, c.position, 3 * k, 3 * k + 3);
    ConcatSlice(m0.normals, c.normal, 3 * k, 3 * k + 3);
    ConcatSlice(m0.textures, c.texture, 2 * k, 2 * k + 2);
  }

  /** Extending a mesh of f corners puts the new corner in the slots of corner f. */
  lemma ExtendFillsSlots(m0: Mesh, c: Corner, f: nat)
    requires |m0.positions| == 3 * f && |m0.normals| == 3 * f && |m0.textures| == 2 * f
    requires |c.position| == 3 && |c.texture| == 2 && |c.normal| == 3
    ensures var m := Extend(m0, c);
      && m.positions[3 * f .. 3 * f + 3] == c.position
      && m.normals[3 * f .. 3 * f + 3] == c.normal
      && m.textures[2 * f .. 2 * f + 2] == c.texture
  {
  }

  /** Corner k owns slots 3k..3k+2 of positions and normals and slots 2k,
      2k+1 of textures, and they hold exactly that corner. */
  lemma {:induction false} AssembleCorners(cs: seq<Result<Corner, ParseError>>, k: nat)
    requires Sized(cs) && Assemble(cs).Ok?
    requires k < |cs|
    ensures cs[k].Ok?
    ensures var m, c := Assemble(cs).value, cs[k].value;
      && |m.positions| == 3 * |cs| && |m.normals| == 3 * |cs| && |m.textures| == 2 * |cs|
      && m.positions[3 * k .. 3 * k + 3] == c.position
      && m.normals[3 * k .. 3 * k + 3] == c.normal
      && m.textures[2 * k .. 2 * k + 2] == c.texture
  {
    var init := cs[..|cs| - 1];
    AssembleLast(cs);
    assert Sized(init) by {
      forall j | 0 <= j < |init| ensures init[j] == cs[j] {}
    }
    AssembleLengths(cs);
    AssembleLengths(init);
    var m0, c0 := Assemble(init).value, cs[|cs| - 1].value;
    if k < |init| {
      AssembleCorners(init, k);
      assert cs[k] == init[k];
      ExtendKeepsSlots(m0, c0, |init|, k);
    } else {
      ExtendFillsSlots(m0, c0, |init|);
    }
  }

  /** A corner, when found, has three position, two texture and three normal floats. */
  lemma CornerSized(reference: string, p: Pools, conv: Conversions)
    requires CornerOf(reference, p, conv).Ok?
    ensures var c := CornerOf(reference, p, conv).value;
      |c.position| == 3 && |c.texture| == 2 && |c.normal| == 3
  {
  }

  lemma CornersSized(refs: seq<string>, p: Pools, conv: Conversions)
    ensures Sized(Corners(refs, p, conv))
  {
    var cs := Corners(refs, p, conv);
    forall k | 0 <= k < |cs| && cs[k].Ok?
      ensures |cs[k].value.position| == 3 && |cs[k].value.texture| == 2 && |cs[k].value.normal| == 3
    {
      CornerSized(refs[k], p, conv);
    }
  }

  /** Corner results gathered one by one for the first references are that prefix of `Corners`. */
  lemma CornersPrefix(refs: seq<string>, p: Pools, conv: Conversions, cs: seq<Result<Corner, ParseError>>)
    requires |cs| <= |refs|
    requires forall i {:trigger CornerOf(refs[i], p, conv)} :: 0 <= i < |cs| ==> cs[i] == CornerOf(refs[i], p, conv)
    ensures Corners(refs, p, conv)[..|cs|] == cs
  {
  }

  /** A reference fails exactly when one of its fields is not an integer,
      it has fewer than three fields, an index is below 1, or the record
      it names reaches past the end of its pool. */
  lemma CornerErrors(reference: string, p: Pools, conv: Conversions)
    ensures var ns, c := Convert(Split(reference, '/'), conv.toInt), CornerOf(reference, p, conv);
      && (ns.Err? ==> c == Err(BadNumber(ns.error)))
      && (ns.Ok? && |ns.value| < 3 ==>
            c == Err(MalformedReference(reference)) || c == Err(IndexOutOfRange(reference)))
      && (ns.Ok? && |ns.value| >= 3 ==>
           (c.Err? <==>
              || ns.value[0] < 1 || 3 * ns.value[0] > |p.vertices|
              || ns.value[1] < 1 || 2 * ns.value[1] > |p.textures|
              || ns.value[2] < 1 || 3 * ns.value[2] > |p.normals|))
      && (ns.Ok? && |ns.value| >= 3 && c.Err? ==> c == Err(IndexOutOfRange(reference)))
  {
  }

  /** A reference of the form "a//c" (position and normal, no texture)
      is not supported: its empty middle field fails to convert. */
  lemma NormalOnlyReferenceFails(a: string, c: string, p: Pools, conv: Conversions)
    requires '/' !in a && '/' !in c
    requires conv.toInt(a).Some? && conv.toInt("") == None
    ensures CornerOf(a + "//" + c, p, conv) == Err(BadNumber(""))
  {
    var fields := [a, "", c];
    assert fields[1..] == ["", c] && fields[1..][1..] == [c];
    assert Join(["", c], '/') == [] + ['/'] + c;
    assert Join(fields, '/') == a + ['/'] + ([] + ['/'] + c);
    assert a + ['/'] + ([] + ['/'] + c) == a + "//" + c;
    SplitJoin(fields, '/');
    ConvertSpec(fields, conv.toInt);
  }

  /** The expansion fails exactly when some reference fails, and then with
      the error of the first one that does. */
  lemma ExpandFailsIff(refs: seq<string>, p: Pools, conv: Conversions)
    ensures ExpandAll(refs, p, conv).Err? <==>
      exists k :: 0 <= k < |refs| && CornerOf(refs[k], p, conv).Err?
    ensures ExpandAll(refs, p, conv).Err? ==>
      exists k :: 0 <= k < |refs| && CornerOf(refs[k], p, conv).Err? && ExpandAll(refs, p, conv).error == CornerOf(refs[k], p, conv).error
                  && forall j :: 0 <= j < k ==> CornerOf(refs[j], p, conv).Ok?
  {
    var cs := Corners(refs, p, conv);
    AssembleFailsIff(cs);
    if ExpandAll(refs, p, conv).Err? {
      var k :| 0 <= k < |cs| && cs[k].Err? && cs[k].error == Assemble(cs).error
               && forall j :: 0 <= j < k ==> cs[j].Ok?;
      assert cs[k] == CornerOf(refs[k], p, conv);
      assert forall j :: 0 <= j < k ==> cs[j] == CornerOf(refs[j], p, conv);
    } else {
      forall k | 0 <= k < |refs| ensures CornerOf(refs[k], p, conv).Ok? {
        assert cs[k] == CornerOf(refs[k], p, conv);
      }
    }
  }

  /** F references give 3F position floats, 3F normal floats and 2F texture floats. */
  lemma ExpandLengths(refs: seq<string>, p: Pools, conv: Conversions)
    requires ExpandAll(refs, p, conv).Ok?
    ensures var m := ExpandAll(refs, p, conv).value;
      |m.positions| == 3 * |refs| && |m.normals| == 3 * |refs| && |m.textures| == 2 * |refs|
  {
    CornersSized(refs, p, conv);
    AssembleLengths(Corners(refs, p, conv));
  }

  /** The k-th reference owns slots 3k..3k+2 of positions and normals and
      slots 2k, 2k+1 of textures, and they hold exactly what it copies. */
  lemma ExpandCorners(refs: seq<string>, p: Pools, conv: Conversions, k: nat)
    requires ExpandAll(refs, p, conv).Ok?
    requires k < |refs|
    ensures CornerOf(refs[k], p, conv).Ok?
    ensures var m, c := ExpandAll(refs, p, conv).value, CornerOf(refs[k], p, conv).value;
      && |m.positions| == 3 * |refs| && |m.normals| == 3 * |refs| && |m.textures| == 2 * |refs|
      && m.positions[3 * k .. 3 * k + 3] == c.position
      && m.normals[3 * k .. 3 * k + 3] == c.normal
      && m.textures[2 * k .. 2 * k + 2] == c.texture
  {
    CornersSized(refs, p, conv);
    AssembleCorners(Corners(refs, p, conv), k);
  }

  /** A slice inside the first part of a concatenation does not see the second part. */
  lemma ConcatSlice(a: seq<real>, b: seq<real>, i: nat, j: nat)
    requires i <= j <= |a|
    ensures (a + b)[i..j] == a[i..j]
  {
  }

  /** What a reference "n0/n1/n2" copies: record n0 (1-based) of the
      vertex pool, record n1 of the texture pool with v flipped to 1 - v,
      and record n2 of the normal pool. */
  lemma CornerContents(reference: string, p: Pools, conv: Conversions)
    requires CornerOf(reference, p, conv).Ok?
    ensures var ns, c := Convert(Split(reference, '/'), conv.toInt), CornerOf(reference, p, conv).value;
      && ns.Ok? && |ns.value| >= 3
      && 1 <= ns.value[0] && 3 * ns.value[0] <= |p.vertices|
      && 1 <= ns.value[1] && 2 * ns.value[1] <= |p.textures|
      && 1 <= ns.value[2] && 3 * ns.value[2] <= |p.normals|
      && c.position == p.vertices[3 * (ns.value[0] - 1) .. 3 * ns.value[0]]
      && c.texture == [p.textures[2 * (ns.value[1] - 1)], 1.0 - p.textures[2 * (ns.value[1] - 1) + 1]]
      && c.normal == p.normals[3 * (ns.value[2] - 1) .. 3 * ns.value[2]]
  {
  }

  /** The k-th reference "n0/n1/n2" fills slots 3k..3k+2 of positions and
      normals from records n0 and n2 of their pools, and slots 2k, 2k+1 of
      textures from record n1 with v flipped, so 1 - textures[2k+1] gives
      the raw v back. */
  lemma ExpandSlots(refs: seq<string>, p: Pools, conv: Conversions, k: nat)
    requires ExpandAll(refs, p, conv).Ok?
    requires k < |refs|
    ensures var ns, m := Convert(Split(refs[k], '/'), conv.toInt), ExpandAll(refs, p, conv).value;
      && ns.Ok? && |ns.value| >= 3
      && |m.positions| == 3 * |refs| && |m.normals| == 3 * |refs| && |m.textures| == 2 * |refs|
      && 1 <= ns.value[0] && 3 * ns.value[0] <= |p.vertices|
      && 1 <= ns.value[1] && 2 * ns.value[1] <= |p.textures|
      && 1 <= ns.value[2] && 3 * ns.value[2] <= |p.normals|
      && m.positions[3 * k .. 3 * k + 3] == p.vertices[3 * (ns.value[0] - 1) .. 3 * ns.value[0]]
      && m.normals[3 * k .. 3 * k + 3] == p.normals[3 * (ns.value[2] - 1) .. 3 * ns.value[2]]
      && m.textures[2 * k] == p.textures[2 * (ns.value[1] - 1)]
      && 1.0 - m.textures[2 * k + 1] == p.textures[2 * (ns.value[1] - 1) + 1]
  {
    ExpandCorners(refs, p, conv, k);
    CornerContents(refs[k], p, conv);
    var m := ExpandAll(refs, p, conv).value;
    assert m.textures[2 * k] == m.textures[2 * k .. 2 * k + 2][0];
    assert m.textures[2 * k + 1] == m.textures[2 * k .. 2 * k + 2][1];
  }

  /** A reference "x/x/x" names record n of every pool when x converts to n. */
  lemma RepeatedFields(x: string, n: int, conv: Conversions)
    requires '/' !in x && conv.toInt(x) == Some(n)
    ensures Fields(x + "/" + x + "/" + x, conv) == Ok([n, n, n])
  {
    var fields := [x, x, x];
    assert fields[1..] == [x, x] && fields[1..][1..] == [x];
    assert Join([x, x], '/') == x + ['/'] + x;
    assert Join(fields, '/') == x + ['/'] + (x + ['/'] + x);
    assert x + ['/'] + (x + ['/'] + x) == x + "/" + x + "/" + x;
    SplitJoin(fields, '/');
    ConvertSpec(fields, conv.toInt);
    var r := Convert(fields, conv.toInt);
    assert conv.toInt(fields[0]).Some? && conv.toInt(fields[1]).Some? && conv.toInt(fields[2]).Some?;
    assert r.value[0] == n && r.value[1] == n && r.value[2] == n;
    assert r.value == [n, n, n];
  }

  /** Records 0, 1 and 2 of a pool made of three records of `width` floats. */
  lemma ThreeRecords(a: seq<real>, b: seq<real>, c: seq<real>, width: nat)
    requires |a| == |b| == |c| == width
    ensures Fetch(a + b + c, 0, width) == Some(a)
    ensures Fetch(a + b + c, 1, width) == Some(b)
    ensures Fetch(a + b + c, 2, width) == Some(c)
  {
    var pool := a + b + c;
    assert pool[0 .. width] == a;
    assert pool[width .. 2 * width] == b;
    assert pool[2 * width .. 3 * width] == c;
  }

  /** A reference "x/x/x" whose number names a record present in every
      pool yields that record's position, flipped texture and normal. */
  lemma RepeatedCorner(x: string, n: int, p: Pools, conv: Conversions, v: seq<real>, t: seq<real>, nl: seq<real>)
    requires '/' !in x && conv.toInt(x) == Some(n)
    requires Fetch(p.vertices, n - 1, 3) == Some(v)
    requires Fetch(p.textures, n - 1, 2) == Some(t)
    requires Fetch(p.normals, n - 1, 3) == Some(nl)
    ensures CornerOf(x + "/" + x + "/" + x, p, conv) == Ok(Corner(v, [t[0], 1.0 - t[1]], nl))
  {
    RepeatedFields(x, n, conv);
  }

  /** Three good corners assemble into their records laid end to end. */
  lemma AssembleThree(c1: Corner, c2: Corner, c3: Corner)
    ensures Assemble([Ok(c1), Ok(c2), Ok(c3)]) == Ok(Mesh(c1.position + c2.position + c3.position,
                                                          c1.normal + c2.normal + c3.normal,
                                                          c1.texture + c2.texture + c3.texture))
  {
    var none: seq<Result<Corner, ParseError>> := [];
    var one := none + [Ok(c1)];
    var two := one + [Ok(c2)];
    AssembleSnoc(none, Ok(c1));
    assert [] + c1.position == c1.position && [] + c1.normal == c1.normal && [] + c1.texture == c1.texture;
    AssembleSnoc(one, Ok(c2));
    AssembleSnoc(two, Ok(c3));
    assert two + [Ok(c3)] == [Ok(c1), Ok(c2), Ok(c3)];
  }

  /** The single triangle `f 1/1/1 2/2/2 3/3/3` over three vertices, three
      normals and three texture coordinates: the corners are copied in
      order and every v becomes 1 - v. The numbers 1, 2 and 3 may be
      spelled any way the conversion accepts. */
  lemma TriangleScenario(one: string, two: string, three: string,
                         v1: seq<real>, v2: seq<real>, v3: seq<real>,
                         n1: seq<real>, n2: seq<real>, n3: seq<real>,
                         t1: seq<real>, t2: seq<real>, t3: seq<real>, conv: Conversions)
    requires '/' !in one && '/' !in two && '/' !in three
    requires conv.toInt(one) == Some(1) && conv.toInt(two) == Some(2) && conv.toInt(three) == Some(3)
    requires |v1| == |v2| == |v3| == 3 && |n1| == |n2| == |n3| == 3 && |t1| == |t2| == |t3| == 2
    ensures var faces := [one + "/" + one + "/" + one, two + "/" + two + "/" + two, three + "/" + three + "/" + three];
      ExpandAll(faces, Pools(v1 + v2 + v3, n1 + n2 + n3, t1 + t2 + t3, faces), conv)
        == Ok(Mesh(v1 + v2 + v3, n1 + n2 + n3,
                   [t1[0], 1.0 - t1[1]] + [t2[0], 1.0 - t2[1]] + [t3[0], 1.0 - t3[1]]))
  {
    var faces := [one + "/" + one + "/" + one, two + "/" + two + "/" + two, three + "/" + three + "/" + three];
    var p := Pools(v1 + v2 + v3, n1 + n2 + n3, t1 + t2 + t3, faces);
    ThreeRecords(v1, v2, v3, 3);
    ThreeRecords(n1, n2, n3, 3);
    ThreeRecords(t1, t2, t3, 2);
    RepeatedCorner(one, 1, p, conv, v1, t1, n1);
    RepeatedCorner(two, 2, p, conv, v2, t2, n2);
    RepeatedCorner(three, 3, p, conv, v3, t3, n3);
    var c1 := Corner(v1, [t1[0], 1.0 - t1[1]], n1);
    var c2 := Corner(v2, [t2[0], 1.0 - t2[1]], n2);
    var c3 := Corner(v3, [t3[0], 1.0 - t3[1]], n3);
    var cs := Corners(faces, p, conv);
    assert cs[0] == Ok(c1) && cs[1] == Ok(c2) && cs[2] == Ok(c3);
    assert cs == [Ok(c1), Ok(c2), Ok(c3)];
    AssembleThree(c1, c2, c3);
  }

  // ---------------------------------------------------------------------
  // The whole parse
  // ---------------------------------------------------------------------

  /** A parsed mesh holds one vertex per face reference: three per triangle
      line and six per quad line, with the arrays in lock-step. */
  lemma ParseObjVertexCount(obj: string, conv: Conversions)
    requires ParseObj(obj, conv).Ok?
    ensures var m := ParseObj(obj, conv).value;
      var n := 3 * FaceLines(Lines(obj), 3) + 6 * FaceLines(Lines(obj), 4);
      |m.positions| == 3 * n && |m.normals| == 3 * n && |m.textures| == 2 * n
  {
    var p := Collect(Lines(obj), conv).value;
    FaceReferenceCount(Lines(obj), conv);
    ExpandLengths(p.faces, p, conv);
  }

  /** Any line with an unknown command makes the whole parse fail: no mesh is produced. */
  lemma ParseObjRejectsUnknown(obj: string, i: nat, conv: Conversions)
    requires i < |Lines(obj)|
    requires Classify(Command(Lines(obj)[i])) == Unknown
    ensures ParseObj(obj, conv).Err?
  {
    UnknownCommandRejects(Lines(obj), i, conv);
  }
}
