# OBJ mesh loader of the camera-effect app

This project models the Wavefront OBJ loader of an Android camera-effect app
in Dafny and proves properties of the model. The loader is `Model.fromOBJ`,
and the `Model` class it builds holds three flat float arrays (positions,
normals, texture coordinates) and a vertex count.

The loader works in two phases:

1. **Dispatch.** The text is cut into lines. Each line is trimmed, split on
   single spaces and dispatched on its first token:
   - a blank line, a bare `#` and `mtllib`/`usemtl`/`g`/`s`/`o` do nothing;
   - `v`, `vn` and `vt` append their converted arguments to their own pool;
   - `f` appends its three references (triangle) or the fan `0,1,2, 2,3,0`
     (quad), and drops any other arity;
   - any other token fails the parse.
2. **Expansion.** Arrays of `3F`, `3F` and `2F` floats are allocated for `F`
   face references. One loop copies, for each reference `a/b/c`, the position
   record `a`, the texture record `b` with `v` replaced by `1 - v`, and the
   normal record `c`. Each record is read only after checking that its field
   and its floats exist.

Modules:

- `ObjText`: Kotlin's `lines()`, `trim()` and `split(char)` as functions, with
  their round trips.
- `ObjSpec`: the meaning of the parse as functions. It covers a line (`Step`),
  the first phase (`Collect`), one reference (`CornerOf`), the expansion
  (`ExpandAll`) and the whole parse (`ParseObj`).
- `ObjProperties`: lemmas about those functions.
- `ObjModel`: the loader as the source writes it.
  - `class Model` is the parsed mesh.
  - The pools grow line by line in a loop.
  - The expansion writes three `array<real>`s through per-array write
    counters.
  - Each method with an `ObjSpec` counterpart is proved equal to it; the
    write helpers `CopyTriple` and `CopyFlipped` state directly the slice
    they write and that the rest of the array is untouched.
  - `Model.Valid` states the lock-step sizes, which the constructor
    establishes and every model returned by the loader satisfies.
- `ObjFindings`: two places where the code as written departs from its evident
  intent, each modelled as written.

`String.toFloat()` and `String.toInt()` are a parameter
`Conversions(toFloat, toInt)` of partial conversions. `None` stands for a
thrown `NumberFormatException`.

The exceptions the source throws become the `ParseError` cases:

- `UnrecognizedCommand`;
- `BadNumber` (a conversion failed);
- `MalformedReference` (a missing field);
- `IndexOutOfRange` (a pool read outside the pool).

They are checked in source order.

Where common OBJ conventions (whitespace-separated tokens, `#…` comments) and
the code disagree, the model follows the code:

- Only a bare `#` token is a comment; a word such as `#foo` is an unknown
  command (`HashWordIsNotComment`).
- Lines split on single spaces rather than on whitespace runs, so a doubled
  space yields an empty token (`DoubledSpaceGivesEmptyToken`).
- The closing size checks as written fail for every non-empty mesh; see
  Findings.

## Model

All source paths are under `app/src/main/kotlin/com/github/dmitriyg1/cameraeffect/ui/`; the table gives them in full.

| member | source | states |
|---|---|---|
| ObjModel.Model.constructor | app/src/main/kotlin/com/github/dmitriyg1/cameraeffect/ui/Model.kt:33-47 | keeps the three arrays; given three floats per vertex in positions and normals and two in textures, `numFaces` is the vertex count: 3·numFaces = positions = normals and 2·numFaces = textures, which is `Valid()` |
| ObjModel.FromObj | app/src/main/kotlin/com/github/dmitriyg1/cameraeffect/ui/Model.kt:65-138 | fails exactly when `ParseObj` fails and with the same error; otherwise the model's arrays are the parsed mesh and `numFaces` is 3 per triangle `f` line plus 6 per quad `f` line; the model is `Valid()` |
| ObjModel.ReadPools | app/src/main/kotlin/com/github/dmitriyg1/cameraeffect/ui/Model.kt:67-105 | the loop over the lines ends with exactly `Collect(lines)`: the pools after every line in order, or the first line's error |
| ObjModel.ReadLine | app/src/main/kotlin/com/github/dmitriyg1/cameraeffect/ui/Model.kt:74-104 | updating the four pools for one line gives exactly `Step` |
| ObjModel.AppendFloats | app/src/main/kotlin/com/github/dmitriyg1/cameraeffect/ui/Model.kt:83-85 | the pool grows by every converted argument in order, or fails with the first argument that does not convert |
| ObjModel.Expand | app/src/main/kotlin/com/github/dmitriyg1/cameraeffect/ui/Model.kt:107-137 | fails exactly when `ExpandAll` fails and with its error; otherwise the model holds `ExpandAll`'s mesh, `numFaces` is the number of face references, and the model is `Valid()` |
| ObjModel.Fill | app/src/main/kotlin/com/github/dmitriyg1/cameraeffect/ui/Model.kt:111-135 | the counter loop reports a failure exactly when `ExpandAll` fails, with its error; on success the three whole arrays are `ExpandAll`'s mesh, so every counter has reached the end of the array it writes |
| ObjModel.CopyCorner | app/src/main/kotlin/com/github/dmitriyg1/cameraeffect/ui/Model.kt:115-131 | one loop body fails exactly when `CornerOf` fails; otherwise the written prefixes grow by that reference's corner; no slot past them changes |
| ObjModel.CopyFields | app/src/main/kotlin/com/github/dmitriyg1/cameraeffect/ui/Model.kt:117-131 | after the fields are converted: fails exactly as `CornerAt` does; otherwise positions grow by the position record, textures by the flipped texture pair, normals by the normal record; no slot past those changes |
| ObjModel.CopyTriple | app/src/main/kotlin/com/github/dmitriyg1/cameraeffect/ui/Model.kt:119-122 | three post-incremented writes append pool floats `index..index+3` after the written prefix, and every later slot is untouched |
| ObjModel.CopyFlipped | app/src/main/kotlin/com/github/dmitriyg1/cameraeffect/ui/Model.kt:124-126 | two writes append `u` and `1 - v` after the written prefix, and every later slot is untouched |
| ObjText.TrimDropsOnlyWhitespace | app/src/main/kotlin/com/github/dmitriyg1/cameraeffect/ui/Model.kt:74 | `trim()` returns a contiguous slice of the line that starts and ends with non-whitespace, and only whitespace is cut off either side |
| ObjText.JoinSplit | app/src/main/kotlin/com/github/dmitriyg1/cameraeffect/ui/Model.kt:74 | joining the pieces of `split(sep)` with `sep` gives the string back |
| ObjText.SplitJoin | app/src/main/kotlin/com/github/dmitriyg1/cameraeffect/ui/Model.kt:115 | splitting a join of separator-free pieces gives the pieces back |
| ObjText.SplitPiecesFree | app/src/main/kotlin/com/github/dmitriyg1/cameraeffect/ui/Model.kt:74 | no piece of `split(sep)` contains `sep` |
| ObjText.SplitWhole | app/src/main/kotlin/com/github/dmitriyg1/cameraeffect/ui/Model.kt:74 | a string without the separator splits into itself alone |
| ObjText.LinesHaveNoBreaks | app/src/main/kotlin/com/github/dmitriyg1/cameraeffect/ui/Model.kt:72 | no line of `lines()` contains `\n` or `\r` |
| ObjText.LinesWithoutCarriageReturn | app/src/main/kotlin/com/github/dmitriyg1/cameraeffect/ui/Model.kt:72 | without `\r`, `lines()` is `split('\n')`, and joining the lines with `\n` gives the text back |
| ObjSpec.Tokens | app/src/main/kotlin/com/github/dmitriyg1/cameraeffect/ui/Model.kt:74-76 | a line always has a first token, so `first()` never fails |
| ObjSpec.ClassifyCases | app/src/main/kotlin/com/github/dmitriyg1/cameraeffect/ui/Model.kt:77-104 | which first tokens select which branch of the `when`, each as an if-and-only-if |
| ObjSpec.Triangulate | app/src/main/kotlin/com/github/dmitriyg1/cameraeffect/ui/Model.kt:86-102 | an `f` line adds a multiple of three references, all taken from its arguments |
| ObjSpec.ConvertSpec | app/src/main/kotlin/com/github/dmitriyg1/cameraeffect/ui/Model.kt:83-85 | converting tokens succeeds iff every token converts, giving each token's value in order; otherwise it fails with the first token that does not convert |
| ObjSpec.ConvertErrorPersists | app/src/main/kotlin/com/github/dmitriyg1/cameraeffect/ui/Model.kt:115 | once a prefix of the tokens fails, every longer prefix fails with the same token |
| ObjSpec.Fields | app/src/main/kotlin/com/github/dmitriyg1/cameraeffect/ui/Model.kt:115 | a converted reference has one number per `/`-separated field, at least one |
| ObjProperties.CollectErrorPersists | app/src/main/kotlin/com/github/dmitriyg1/cameraeffect/ui/Model.kt:71-105 | the first failing line decides the result of the whole first phase |
| ObjProperties.CollectSnoc | app/src/main/kotlin/com/github/dmitriyg1/cameraeffect/ui/Model.kt:71-105 | one more line applies `Step` to the pools so far, or keeps the earlier error |
| ObjProperties.NoOpLineKeepsPools | app/src/main/kotlin/com/github/dmitriyg1/cameraeffect/ui/Model.kt:78-82 | a blank line, a bare `#` or an ignored command leaves the result unchanged |
| ObjProperties.PoolLineAppends | app/src/main/kotlin/com/github/dmitriyg1/cameraeffect/ui/Model.kt:83-85 | a `v`, `vn` or `vt` line appends its converted arguments to its own pool and to no other, or fails with the token that does not convert |
| ObjProperties.FaceLineAppends | app/src/main/kotlin/com/github/dmitriyg1/cameraeffect/ui/Model.kt:86-102 | an `f` line appends its triangulated references and changes nothing else |
| ObjProperties.TriangulateFan | app/src/main/kotlin/com/github/dmitriyg1/cameraeffect/ui/Model.kt:86-102 | a triangle is kept as given; a quad becomes `[a0,a1,a2]` then `[a2,a3,a0]`, which is its arguments plus a0 and a2 once more; any other arity adds nothing |
| ObjProperties.UnknownCommandStep | app/src/main/kotlin/com/github/dmitriyg1/cameraeffect/ui/Model.kt:77-103 | a line fails with `UnrecognizedCommand` iff its first token is none of the accepted ones |
| ObjProperties.UnknownCommandRejects | app/src/main/kotlin/com/github/dmitriyg1/cameraeffect/ui/Model.kt:103 | one line with an unknown command anywhere makes the first phase fail |
| ObjProperties.HashWordIsNotComment | app/src/main/kotlin/com/github/dmitriyg1/cameraeffect/ui/Model.kt:78 | a single word starting with `#` is not a comment: the line is rejected as an unknown command |
| ObjProperties.OneWordCommand | app/src/main/kotlin/com/github/dmitriyg1/cameraeffect/ui/Model.kt:74-75 | a line that is one word with no space and no surrounding whitespace is its own command token |
| ObjProperties.HashWordUnknown | app/src/main/kotlin/com/github/dmitriyg1/cameraeffect/ui/Model.kt:77-103 | a token of two or more characters starting with `#` selects the `else` branch |
| ObjProperties.DoubledSpaceGivesEmptyToken | app/src/main/kotlin/com/github/dmitriyg1/cameraeffect/ui/Model.kt:74 | two spaces between arguments yield an empty argument between them |
| ObjProperties.StepFaceCount | app/src/main/kotlin/com/github/dmitriyg1/cameraeffect/ui/Model.kt:86-102 | a successful line adds 3 references for a triangle, 6 for a quad and none otherwise |
| ObjProperties.FaceReferenceCount | app/src/main/kotlin/com/github/dmitriyg1/cameraeffect/ui/Model.kt:86-102 | after the first phase there are 3 references per triangle line plus 6 per quad line |
| ObjProperties.AssembleSnoc | app/src/main/kotlin/com/github/dmitriyg1/cameraeffect/ui/Model.kt:114-132 | one more reference extends the mesh by its corner, or fails with its error, or keeps the earlier error |
| ObjProperties.AssembleErrorPersists | app/src/main/kotlin/com/github/dmitriyg1/cameraeffect/ui/Model.kt:114-132 | once a prefix of the references fails, the whole expansion fails with that error |
| ObjProperties.AssembleFailsIff | app/src/main/kotlin/com/github/dmitriyg1/cameraeffect/ui/Model.kt:114-132 | the loop fails iff some corner fails, and then with the error of the first failing one |
| ObjProperties.AssembleLengths | app/src/main/kotlin/com/github/dmitriyg1/cameraeffect/ui/Model.kt:107-109 | F well-sized corners fill exactly 3F position, 3F normal and 2F texture floats |
| ObjProperties.AssembleCorners | app/src/main/kotlin/com/github/dmitriyg1/cameraeffect/ui/Model.kt:114-132 | corner k lands in slots 3k..3k+2 of positions and normals and 2k..2k+1 of textures |
| ObjProperties.CornerSized | app/src/main/kotlin/com/github/dmitriyg1/cameraeffect/ui/Model.kt:119-131 | a good corner has a 3-float position, a 2-float texture and a 3-float normal |
| ObjProperties.CornersPrefix | app/src/main/kotlin/com/github/dmitriyg1/cameraeffect/ui/Model.kt:114 | corners computed one by one in loop order are a prefix of the corners of all references |
| ObjProperties.CornerErrors | app/src/main/kotlin/com/github/dmitriyg1/cameraeffect/ui/Model.kt:115-131 | the three failure cases of one reference: a field that does not convert, fewer than three fields, a record outside its pool (iff any record is missing when there are three fields) |
| ObjProperties.NormalOnlyReferenceFails | app/src/main/kotlin/com/github/dmitriyg1/cameraeffect/ui/Model.kt:115 | the OBJ form `a//c` with no texture index fails on the empty field before any read |
| ObjProperties.ExpandFailsIff | app/src/main/kotlin/com/github/dmitriyg1/cameraeffect/ui/Model.kt:114-132 | the expansion fails iff some reference fails, with the error of the first one that does |
| ObjProperties.ExpandLengths | app/src/main/kotlin/com/github/dmitriyg1/cameraeffect/ui/Model.kt:107-109 | a successful expansion of F references has 3F position, 3F normal and 2F texture floats |
| ObjProperties.ExpandCorners | app/src/main/kotlin/com/github/dmitriyg1/cameraeffect/ui/Model.kt:114-132 | reference k succeeded, and its corner sits at slots 3k / 3k / 2k |
| ObjProperties.CornerContents | app/src/main/kotlin/com/github/dmitriyg1/cameraeffect/ui/Model.kt:115-131 | a good reference has three converted fields, each naming a record inside its pool; the corner is those records, with `v` flipped |
| ObjProperties.ExpandSlots | app/src/main/kotlin/com/github/dmitriyg1/cameraeffect/ui/Model.kt:114-132 | every output slot of reference k holds the pool float its fields name, with the texture `v` flipped |
| ObjProperties.RepeatedFields | app/src/main/kotlin/com/github/dmitriyg1/cameraeffect/ui/Model.kt:115 | a reference `x/x/x` converts to three copies of `x`'s number |
| ObjProperties.AssembleThree | app/src/main/kotlin/com/github/dmitriyg1/cameraeffect/ui/Model.kt:114-132 | three good corners assemble into their records laid end to end |
| ObjProperties.TriangleScenario | app/src/main/kotlin/com/github/dmitriyg1/cameraeffect/ui/Model.kt:107-132 | the triangle `f 1/1/1 2/2/2 3/3/3` over three records of each kind copies them in order, with every texture `v` replaced by `1 - v` |
| ObjProperties.ParseObjVertexCount | app/src/main/kotlin/com/github/dmitriyg1/cameraeffect/ui/Model.kt:39 | a parsed mesh has 3n position floats, 3n normal floats and 2n texture floats, where n is 3 per triangle line plus 6 per quad line, so `numFaces` is n |
| ObjProperties.ParseObjRejectsUnknown | app/src/main/kotlin/com/github/dmitriyg1/cameraeffect/ui/Model.kt:103 | a text with an unknown command on any line does not parse |
| ObjFindings.Wrap32 | app/src/main/kotlin/com/github/dmitriyg1/cameraeffect/ui/Model.kt:115-128 | Kotlin `Int` arithmetic: the result is in the 32-bit range, congruent to the exact value modulo 2^32, and equal to it when that fits |
| ObjFindings.WrappedIndexReadsMisaligned | app/src/main/kotlin/com/github/dmitriyg1/cameraeffect/ui/Model.kt:119-122 | field 1431655767 over a two-vertex pool: the wrapped index reads floats 2..4 where the checked read finds no such record |
| ObjFindings.WrittenFetchAgrees | app/src/main/kotlin/com/github/dmitriyg1/cameraeffect/ui/Model.kt:119-131 | whenever no intermediate value leaves the `Int` range, the read as written is the checked read of record n - 1 |
| ObjFindings.SizeChecksRejectEveryMesh | app/src/main/kotlin/com/github/dmitriyg1/cameraeffect/ui/Model.kt:44-47 | the five size checks as written hold for an expanded mesh iff it has no vertex at all |

## Left out

- `Square.kt` and `GlRenderer.kt` are not part of this model. They cover GL
  drawing, textures and the frame hand-off between threads.
- The NIO buffers built from the arrays, `bindPositionAttributeTo` and its
  siblings, `draw` and every `Log` call are left out. They are foreign GL and
  logging calls that do not affect the parse result.
- Decimal parsing (`toFloat`, `toInt`) is left out. It is the `Conversions`
  parameter, about which nothing is assumed.
- Floats are modelled as `real`, so `1 - v` and the stored values are exact.
  Single-precision rounding is not captured.
- Exception classes and messages are left out. They are reduced to the four
  `ParseError` cases.
- Array writes made before an exception are not modelled. The arrays are
  unreachable after a throw, so the model only says that the parse fails.
- The pools are modelled as `seq` values that the loop reassigns. The
  source's in-place `Vector.add` has no aliasing that a caller could observe.
- `IsWhitespace` follows the JVM's `Char.isWhitespace` table for the
  characters listed. The Unicode version of that table is not modelled.
- ObjModel.CopyFields: computes record indices without 32-bit wrap-around.
  The wrapped arithmetic as written is modelled separately as a finding.
- ObjModel.Model.constructor: requires the corrected sizes rather than the
  `init` checks as written. It also leaves out that JVM assertions are
  normally disabled, which lets those checks pass silently.
- ObjModel.Fill: the source's counters `ni` and `ti` are swapped in name.
  `ni` writes textures and `ti` writes normals. The model gives each counter
  the array it writes and checks it against that array.

## Findings

| source | as written | input that shows it | evidently intended | confidence | as-written member | corrected member |
|---|---|---|---|---|---|---|
| app/src/main/kotlin/com/github/dmitriyg1/cameraeffect/ui/Model.kt:115-131 | `3 * (toInt() - 1)` is computed in 32-bit `Int`, so a huge field wraps to a small index | reference field `1431655767` with two vertices loaded: 3·1431655766 wraps to 2, and floats 2, 3 and 4 are read as a position | a record that does not exist is reported as out of range | not executed; certain for the arithmetic | ObjFindings.WrappedIndexReadsMisaligned | ObjProperties.CornerContents |
| app/src/main/kotlin/com/github/dmitriyg1/cameraeffect/ui/Model.kt:44-47 | `positions.size == textures.size`, and the final checks compare `ni` (2 per reference) with normals and `ti` (3 per reference) with textures | any mesh with one triangle: 9 positions, 9 normals and 6 textures fail three of the five checks | each counter equals the size of the array it writes; positions and normals have 3 floats per vertex and textures 2 | not executed; certain with assertions enabled | ObjFindings.SizeChecksRejectEveryMesh | ObjProperties.ExpandLengths |
