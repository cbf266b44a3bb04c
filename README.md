# build123d builders: staging, sketch merge and generic operations

This project models the core of build123d's builder layer:

- the 2D sketch builder `BuildSketch` and its operations and objects (`src/build123d/build_sketch.py`);
- the prototype builders `Build3D`, `Build2D` and `Build1D` (`cq3.py`);
- the generic operations that work in any builder, namely `Add`, `BoundingBox`, `Chamfer`, `Fillet`, `Mirror`, `Offset`, `Scale` and `Split` (`src/build123d/build_generic.py`).

A builder is a context the user opens. Objects and operations created inside it hand their shapes to the builder. The builder combines new faces or solids into its working shape under a combination mode (ADD, SUBTRACT, INTERSECT, REPLACE, CONSTRUCTION, PRIVATE). It keeps edges pending until an operation turns them into a face. It records which vertices, edges and faces the last operation created. It places new objects at its active locations.

The geometry kernel (OpenCascade through cadquery) is not modelled. It is an uninterpreted `Kernel` value (`geometry.dfy`) of total functions over opaque shape handles. A handle carries the Python class of the shape (`Vertex`, `Edge`, `Wire`, `Face`, `Shell`, `Solid`, `Compound`). Where cadquery's signature fixes the class of a result, the model fixes it too: `moved` and `located` keep the class, `makeFromWires` gives a `Face`, `makeCompound` gives a `Compound`, `makeBox` gives a `Solid`. Which shape a boolean, a fillet or an offset produces is up to the kernel.

Modules:

- `wrappers.dfy`: `Option`, `Result` and `Outcome`.
- `common.dfy` (`BuildCommon`): the combination modes and the `Keep` and `Kind` enumerations of build_common.
- `geometry.dfy` (`Geometry`): shapes, locations, planes, bounding boxes, the `Kernel`, and the list comprehensions every builder uses:
  - filter by class;
  - members of compounds;
  - edges of wires;
  - `xs[0] if len(xs) == 1 else xs`.
- `sketch.dfy` (`Sketch`): `BuildSketch` as a class whose `_add_to_context` is specified by a pure `Merge` on a state value.
  - `BuildFace` and `BuildHull`.
  - The broadcast shared by every sketch object.
  - `Circle`, `Rectangle`, `Polygon` and `Trapezoid`.
- `cq3.dfy` (`Cq3`): the classes `Build3D`, `Build2D` and `Build1D`.
  - `Build3D` keeps its per-workplane staging tables as maps.
  - Its selectors are specified by an insertion sort proved ascending and a permutation.
  - `place_solids`, `extrude` and `revolve` are modelled with the revolve angle normalisation.
  - `Build1D.polyline` records its tags.
- `generic.dfy` (`Generic`): what the generic operations see of the active builder (a `Context`) and what they do to it. They do it as a list of calls on the builder, `_add_to_pending`, `_add_to_context` and the reset of `locations`, followed by the compound the operation becomes. `generic_add.dfy`, `generic_bounds.dfy`, `generic_treat.dfy`, `generic_transform.dfy` and `generic_offset.dfy` hold one operation family each. Each is specified twice:
  - as a pure function of the inputs, with lemmas about it;
  - as a method with the source's loops, proved equal to that function.

The active builder and its locations live in build_common, which is not part of this model. They are explicit inputs: the `Context` of a generic operation, and the `locations` argument of a sketch object. Python floats are `real`. Python's floored `%` on floats is written out with `Floor`. The vertex, edge and face deltas are sets, because the source builds them as `list(set(...))`, whose order is not defined.

Where a docstring and the code disagree, the model follows the code:

- `_add_to_context` documents ValueError for a missing sketch, but raises RuntimeError (build_sketch.py, lines 141 and 145).
- `Offset` documents a default mode of ADD and a ValueError for an invalid object type. The code uses REPLACE and silently ignores other classes (`GenericOffset.OffsetIgnoresOtherClasses`).
- The same holds for the default mode of `Scale` and `Split`: the docstring says ADD or INTERSECT, the code says REPLACE.

## Model

| member | source | states |
|---|---|---|
| Geometry.OfTypeMembers | src/build123d/build_sketch.py:117-119 | the class filter keeps exactly the inputs of that class and never grows the list |
| Geometry.FromCompoundsMembers | src/build123d/build_sketch.py:120-123 | the gathered members are exactly the members of that class of some compound input |
| Geometry.EdgesOfAllMembers | src/build123d/build_sketch.py:165-167 | the flattened list holds exactly the edges of the given wires |
| Geometry.Collapse | cq3.py:190 | `xs[0] if len(xs) == 1 else xs` loses nothing, and is a single item exactly when there is one |
| Sketch.Classify | src/build123d/build_sketch.py:117-123 | the loose faces (edges, wires) come first, in input order, ahead of those taken from compounds |
| Sketch.ClassifyMembers | src/build123d/build_sketch.py:117-123 | the new faces (edges, wires) are exactly the inputs of that class together with that class's members of every compound input |
| Sketch.Merge | src/build123d/build_sketch.py:116-167 | PRIVATE changes nothing. The merge fails, with RuntimeError, exactly when SUBTRACT or INTERSECT meets no sketch and at least one new face. With no new face, or under CONSTRUCTION, the sketch stays as it was |
| Sketch.DeltasAreNewEntities | src/build123d/build_sketch.py:155-163 | each of the three deltas holds exactly the entities present after the merge and absent before it |
| Sketch.NoFacesNoDelta | src/build123d/build_sketch.py:128-163 | with no new face, or under a mode none of the branches handles, the merge succeeds, the sketch is unchanged and every delta is empty |
| Sketch.AddIntoEmptySketch | src/build123d/build_sketch.py:134-136 | ADD into an empty sketch yields the compound of exactly the new faces, and the new faces delta is that compound's faces |
| Sketch.ReplaceDiscardsPrior | src/build123d/build_sketch.py:147-148 | REPLACE with a new face yields the same cleaned compound whatever sketch there was before |
| Sketch.PendingEdgesGrowIndependentlyOfMode | src/build123d/build_sketch.py:165-167 | the old pending edges stay as a prefix, followed by the new edges and then the new wires' edges, under every merge mode |
| Sketch.Gather | src/build123d/build_sketch.py:117-123 | the filters and the loop over the compounds compute exactly the classification |
| Sketch.BuildSketch.constructor | src/build123d/build_sketch.py:82-87 | a new builder has no sketch, no pending edge and empty deltas |
| Sketch.BuildSketch.ConsolidateEdges | src/build123d/build_sketch.py:89-92 | fails (IndexError) exactly when the pending edges combine into no wire; otherwise returns all the wires, a single one alone |
| Sketch.BuildSketch.AddToContext | src/build123d/build_sketch.py:94-167 | the new state is the one `Merge` gives; an exception leaves every field as it was |
| Sketch.ConsumePendingClearsEdges | src/build123d/build_sketch.py:203-204 | after a successful face build no edge is pending, and the sketch is the built face merged under the merge mode |
| Sketch.PositionalModeIsIgnored | src/build123d/build_sketch.py:203 | the merge as written (mode ADD) puts the face into an empty sketch. The intended PRIVATE merge leaves the sketch untouched, and the intended SUBTRACT merge raises |
| Sketch.BuildFaceAsWritten | src/build123d/build_sketch.py:194-205 | fills the first wire of the given edges (else of the pending edges); IndexError without a wire. The face is merged under ADD whatever the mode, and the pending edges are then cleared |
| Sketch.BuildFace | src/build123d/build_sketch.py:194-205 | as above, with the face merged under the caller's mode. A failed merge leaves the builder unchanged |
| Sketch.BuildHullAsWritten | src/build123d/build_sketch.py:218-229 | fills the hull of the given (else pending) edges, merges it under ADD whatever the mode, and clears the pending edges |
| Sketch.BuildHull | src/build123d/build_sketch.py:218-229 | as above, with the hull merged under the caller's mode |
| Sketch.MergeEachPrivate | src/build123d/build_sketch.py:271-272 | broadcasting under PRIVATE leaves the builder as it was |
| Sketch.MergeEachKeepsPending | src/build123d/build_sketch.py:271-272 | merging faces one by one never touches the pending edges |
| Sketch.MergeEachAddSucceeds | src/build123d/build_sketch.py:271-272 | under ADD every face of the broadcast is merged and a sketch exists afterwards |
| Sketch.SubtractFromEmptyFails | src/build123d/build_sketch.py:271-272 | SUBTRACT or INTERSECT into an empty sketch raises on the first face and changes nothing |
| Sketch.PlaceFaces | src/build123d/build_sketch.py:268-273 | one moved copy of the face per active location. Each copy is merged by its own call, up to the first exception. The result is the compound of all the copies |
| Sketch.Circle | src/build123d/build_sketch.py:248-273 | the circle face, shifted by its radius on each axis that is not centred, broadcast over the locations |
| Sketch.Rectangle | src/build123d/build_sketch.py:391-423 | the height by width plane face, rotated and shifted by half its bounding box where not centred, broadcast over the locations |
| Sketch.Polygon | src/build123d/build_sketch.py:345-375 | the polygon face of the points, rotated and shifted, broadcast over the locations |
| Sketch.TrapezoidPoints | src/build123d/build_sketch.py:762-786 | fails (ValueError) exactly when the two top reductions together reach the width. Otherwise a closed outline of five points whose base is `width` long, whose height is `height`, and whose top-left corner lies left of the top-right one |
| Sketch.TrapezoidDefaultsToSymmetric | src/build123d/build_sketch.py:762 | a missing or zero right-side angle gives the same outline as the left-side angle |
| Sketch.Trapezoid | src/build123d/build_sketch.py:749-801 | an invalid outline raises before anything is merged; otherwise its face is broadcast like the other objects |
| Cq3.Sort | cq3.py:243-285 | the sorted list is ascending by the key and a permutation of the input |
| Cq3.InsertKeepsAscending | cq3.py:243-285 | inserting into an ascending list keeps it ascending and adds exactly the new element |
| Cq3.RevolveAngle | cq3.py:442-443 | the normalised angle lies in (0, 360] and differs from the given one by a whole number of turns |
| Cq3.RevolveAngleKeepsProperAngles | cq3.py:442-443 | an angle already in (0, 360] is kept as it is |
| Cq3.RevolveAngleIdempotent | cq3.py:442-443 | normalising twice changes nothing |
| Cq3.RevolveAnglePeriodic | cq3.py:442-443 | zero degrees is a full turn, and a full turn more changes nothing |
| Cq3.AddAll | cq3.py:195-213 | an exception raised over the first n workplanes is the KeyError of one of them |
| Cq3.AddAllFailureSticks | cq3.py:195-213 | once a workplane raised, later workplanes change nothing |
| Cq3.AddKeepsOtherTable | cq3.py:204-213 | `add` touches only the table its object is staged in and adds no entry to it |
| Cq3.AddAppendsPerWorkplane | cq3.py:195-213 | a successful `add` appends to each workplane's entry exactly one located copy per location of that workplane, in order. Every workplane with locations had an entry |
| Cq3.AddNeedsEntry | cq3.py:197-213 | a successful `add` found an entry for every workplane with locations |
| Cq3.AddAppendsAt | cq3.py:197-213 | a successful `add` leaves each entry as its old contents followed by the copies for that workplane |
| Cq3.AddStep | cq3.py:197-213 | a workplane without locations passes and changes nothing. KeyError for the workplane exactly when it has locations but no entry, and then nothing changes |
| Cq3.AddStepStages | cq3.py:197-213 | one passing step appends the workplane's copies to its existing entry and changes nothing else |
| Cq3.AddFailsOnAppendedWorkplane | cq3.py:227-233 | after `workplane(replace=False)` adds a workplane without a staging entry, `add` raises KeyError for it |
| Cq3.ExtrudedSolids | cq3.py:411-426 | every shape the extrusion builds is a solid |
| Cq3.ExtrudedSolidsCount | cq3.py:411-426 | one solid per face along the direction, or two with `both` (up first, then down), in face order |
| Cq3.RevolveOnWorkplane | cq3.py:446-464 | the loop over one workplane's faces builds exactly the revolved solids about the axis carried into that workplane |
| Cq3.RevolvedSolids | cq3.py:445-464 | on success only solids; a failure is the KeyError of a workplane below n that has no pending faces |
| Cq3.RevolvedSolidsFailureSticks | cq3.py:445-464 | once a workplane raised, later workplanes change nothing |
| Cq3.RevolvedSolidsByWorkplanes | cq3.py:445-464 | with one workplane, one solid per pending face; with an appended workplane, KeyError for it |
| Cq3.MergedSolid | cq3.py:375-390 | fails exactly when there is no working solid and the mode is SUBTRACTION or INTERSECTION, or ADDITION with no new solid. CONSTRUCTION keeps the working solid; every other success leaves one; ADDITION of a single solid into nothing makes that solid the working solid |
| Cq3.PlaceSolidsResult | cq3.py:355-400 | fails exactly when there is no working solid and either the mode is not ADDITION or there is nothing to add. SUBTRACTION and INTERSECTION then raise ValueError. One new solid into an empty builder becomes the working solid. CONSTRUCTION keeps it. Each `last_operation` entry holds exactly what the solid gained |
| Cq3.PopLosesLastSolid | cq3.py:380 | extruding one face with `both` into an empty builder builds two solids, yet returns only the first |
| Cq3.ExtrudeReturnsAllSolids | cq3.py:428-430 | the intended extrude returns every solid it built |
| Cq3.Build3D.constructor | cq3.py:162-174 | no working solid, the one given workplane, and one empty staging entry and location list for it |
| Cq3.Build3D.PushLocations | cq3.py:183-190 | every workplane's location list is extended by the same new locations, which are returned, one alone; nothing else changes |
| Cq3.Build3D.AddOnWorkplane | cq3.py:197-213 | the staging of one workplane is the step function's; nothing else changes |
| Cq3.Build3D.Add | cq3.py:192-225 | the staging tables become the staging function's result over all workplanes, KeyError included; nothing else changes |
| Cq3.Build3D.Workplane | cq3.py:227-233 | replacing leaves the new plane as the only workplane. Appending adds it with the identity location. The new plane is returned |
| Cq3.Build3D.Select | cq3.py:243-353 | ValueError exactly for a key the selector does not accept. Without a working solid, AttributeError. Unsorted: the entities as they are. Sorted: a permutation of them, ascending by the key, or descending when reversed |
| Cq3.Build3D.PlaceSolids | cq3.py:355-400 | the new working solid and deltas are those of `PlaceSolidsResult`; an exception changes nothing; the caller's list loses its last solid as line 380 pops it |
| Cq3.Build3D.ExtrudeSolids | cq3.py:411-426 | the loop builds exactly the extruded solids of the pending faces |
| Cq3.Build3D.ExtrudeAsWritten | cq3.py:402-430 | the solids are merged by `place_solids`, and the list returned is the one the pop left |
| Cq3.Build3D.Extrude | cq3.py:402-430 | the solids are merged by `place_solids`, and every solid built is returned |
| Cq3.Build3D.RevolveSolids | cq3.py:445-464 | the loop over the workplanes builds exactly the revolved solids, KeyError included |
| Cq3.Build3D.RevolveAsWritten | cq3.py:432-468 | revolves by the normalised angle, merges, and returns the list the pop left |
| Cq3.Build3D.Revolve | cq3.py:432-468 | revolves by the normalised angle, merges, and returns every solid built |
| Cq3.ActiveLocations | cq3.py:560-561 | the pushed locations when there are some, and exactly `[identity]` when none were pushed |
| Cq3.CombinedSurfaceFailsOnlyOnOtherModes | cq3.py:564-573 | the combination fails exactly for a value that is not a mode, and CONSTRUCTION leaves the surface alone |
| Cq3.Build2D.constructor | cq3.py:489-495 | an empty compound as the working surface, no pending edge and no pushed location |
| Cq3.Build2D.PushLocations | cq3.py:509-514 | the new locations are appended to the pushed ones and returned |
| Cq3.Build2D.PlaceFace | cq3.py:558-576 | one located face per active location, combined into the surface. The locations are used up. On a value that is not a mode: ValueError, with the identity default stored |
| Cq3.Build2D.Add | cq3.py:505-507 | the placed faces, a single one alone |
| Cq3.Build2D.Rect | cq3.py:530-545 | the width by height plane face rotated about z, placed like `add` |
| Cq3.Build2D.Circle | cq3.py:547-556 | the circle face, placed like `add` |
| Cq3.NatToStringInjective | cq3.py:631 | distinct indices have distinct decimal forms |
| Cq3.TagKeyInjective | cq3.py:631 | distinct indices give distinct `tag-i` keys |
| Cq3.TaggedUpToRecordsEachEdge | cq3.py:630-631 | each key `tag-i` names the i-th edge, the table gains exactly those keys, and every other key keeps its entry |
| Cq3.Build1D.constructor | cq3.py:580-584 | no edge and no tag |
| Cq3.Build1D.Vertices | cq3.py:595-602 | exactly the vertices of the edges that `edges()` returns, each once |
| Cq3.Build1D.Polyline | cq3.py:604-635 | fewer than two points raise ValueError and change nothing. Otherwise one line per pair of consecutive points joins the edge list; a single line is returned alone, several as one wire. With a tag, several lines are recorded as `tag-0`, `tag-1`, ... and a single one as `tag` |
| Cq3.SegmentsJoinConsecutivePoints | cq3.py:615-618 | n points give n - 1 lines, the i-th joining point i to point i + 1 |
| Generic.Inputs | src/build123d/build_generic.py:317-318 | the given objects as they are; else the builder's object; no shape exactly when no object is given and the builder holds none (`_obj` is None) |
| Generic.AmongMembers | src/build123d/build_generic.py:242 | the filter keeps exactly the vertices the selection holds |
| GenericAdd.GridSize | src/build123d/build_generic.py:119-123 | every solid at every location: `|solids| * |locations|` copies |
| GenericAdd.GridMembers | src/build123d/build_generic.py:119-123 | the copies are exactly the solids moved to the locations |
| GenericAdd.AddCalls | src/build123d/build_generic.py:95-142 | on success four calls in BuildPart and one in BuildLine and BuildSketch; the last is a merge in the caller's mode, and `Add` becomes the compound of what that merge is given |
| GenericAdd.AddFailures | src/build123d/build_generic.py:95-142 | fails exactly in an unsupported builder (RuntimeError naming it) or in BuildPart with a numeric rotation and a solid to move |
| GenericAdd.PartFailure | src/build123d/build_generic.py:96-105 | BuildPart cannot move its solids exactly when the rotation is a number and a solid is among the objects |
| GenericAdd.PartStaging | src/build123d/build_generic.py:102-111 | the loose solids moved by the rotation come first, then the compounds' solids unrotated; loose faces and loose edges come ahead of the gathered ones |
| GenericAdd.AddToPartStages | src/build123d/build_generic.py:102-125 | in BuildPart: stage the faces, gathered with those of the compounds; stage the edges, with those of the wires; reset the locations; merge in the caller's mode |
| GenericAdd.AddToPartPlacesSolids | src/build123d/build_generic.py:103-125 | the merged shapes are the staged solids (the loose solids moved by the rotation, then the compounds' solids unrotated), each moved to each active location, `|solids| * |locations|` of them |
| GenericAdd.AddWireToPart | src/build123d/build_generic.py:109-111 | a wire added to BuildPart stages its edges and merges nothing |
| GenericAdd.AddToLineOrSketch | src/build123d/build_generic.py:126-138 | in BuildLine and BuildSketch: one merge in the caller's mode of every object rotated about z by the numeric rotation (else 0) and moved to every location |
| GenericAdd.Add | src/build123d/build_generic.py:95-142 | the calls made and the compound are those of the specification |
| GenericAdd.StagePart | src/build123d/build_generic.py:102-111 | the loops gather exactly the specified faces, solids and edges |
| GenericAdd.PlaceRotated | src/build123d/build_generic.py:128-138 | the loop builds exactly the rotated objects at every location |
| GenericBounds.BoxSpansBoundingBox | src/build123d/build_generic.py:177-184 | the box has the bounding box's minimum as its corner, and corner plus size is the maximum |
| GenericBounds.RectangleCorners | src/build123d/build_generic.py:195-201 | five points in the xy plane, the last equal to the first |
| GenericBounds.RectangleIsAxisAligned | src/build123d/build_generic.py:195-201 | consecutive corners share x or y, and the points are exactly the four extreme corners |
| GenericBounds.Bound | src/build123d/build_generic.py:177-204 | a solid in BuildPart, a face in BuildSketch |
| GenericBounds.BoundingBoxCalls | src/build123d/build_generic.py:172-212 | every call it makes is a merge in the caller's mode; nothing is staged |
| GenericBounds.BoundingBoxFailures | src/build123d/build_generic.py:172-212 | fails exactly outside BuildPart and BuildSketch, with RuntimeError naming the builder |
| GenericBounds.BoundingBoxShapes | src/build123d/build_generic.py:172-207 | exactly the bounds of the non-vertex objects, no more than the objects, and their compound. BuildPart merges all the boxes in one call; BuildSketch merges each face by a call of its own. Vertices alone make an empty merge in BuildPart and no call in BuildSketch |
| GenericBounds.BoundingBox | src/build123d/build_generic.py:172-212 | the calls made and the compound are those of the specification |
| GenericBounds.CollectBounds | src/build123d/build_generic.py:174-204 | the loop skips vertices and bounds the rest, in order |
| GenericBounds.EachOnItsOwn | src/build123d/build_generic.py:205-206 | one merge call per face |
| GenericTreat.TreatCalls | src/build123d/build_generic.py:235-291 | on success the one call is a REPLACE merge of exactly the shape the operation becomes |
| GenericTreat.TreatOutcome | src/build123d/build_generic.py:235-291 | fails exactly outside BuildPart and BuildSketch (RuntimeError naming the builder) and in a BuildPart without a part (AttributeError); otherwise one REPLACE merge of the result, which in BuildPart is the treated part |
| GenericTreat.TreatSketchFaces | src/build123d/build_generic.py:240-247 | every face is kept in place. A face is treated at exactly its vertices that were selected. A face with none of them is left as it is |
| GenericTreat.SketchChamferIgnoresLength2 | src/build123d/build_generic.py:244 | in BuildSketch the second chamfer length has no effect |
| GenericTreat.Treat | src/build123d/build_generic.py:235-291 | the calls made and the result are those of the specification |
| GenericTransform.ScaleMatrix | src/build123d/build_generic.py:477-484 | an affine matrix that scales each axis by its own factor |
| GenericTransform.MirrorMatrix | src/build123d/build_generic.py:325-332 | an affine matrix that negates z and keeps x and y |
| GenericTransform.MirrorIsInvolution | src/build123d/build_generic.py:325-332 | reflecting twice gives the point back |
| GenericTransform.Mirrored | src/build123d/build_generic.py:333-335 | mirroring keeps the class of the shape |
| GenericTransform.MirrorCalls | src/build123d/build_generic.py:317-338 | fails (ValueError from `toLocalCoords`) exactly when the only input is a None builder object. Otherwise one merge in the caller's mode whose i-th shape is input i carried into the plane's frame, reflected in z and carried back, of its input's class, and their compound |
| GenericTransform.MirrorDefaultsToBuilderObject | src/build123d/build_generic.py:317-333 | without objects, the builder's own object is mirrored; a builder that holds nothing makes `Mirror` fail |
| GenericTransform.Factor | src/build123d/build_generic.py:466-475 | a number scales uniformly. A triple of numbers scales per axis. Anything else raises ValueError |
| GenericTransform.Rescaled | src/build123d/build_generic.py:486-491 | rescaling keeps the class of the shape |
| GenericTransform.ScaleCalls | src/build123d/build_generic.py:459-495 | on success one merge in the caller's mode, and the operation is the compound of what it merges |
| GenericTransform.ScaleOutcome | src/build123d/build_generic.py:459-495 | fails exactly when the factor is invalid (ValueError, reported first) or the only input is a None builder object (AttributeError). Otherwise one merge in the caller's mode whose i-th shape is input i moved to the origin, transformed by the scale matrix of the factors and located back at input i's location, of its input's class |
| GenericTransform.Scale | src/build123d/build_generic.py:459-495 | the calls made and the compound are those of the specification |
| GenericTransform.CutterCorner | src/build123d/build_generic.py:520-524 | the cutter box of side 2m starts at (-m, -m) in the plane, at height 0 to keep the top and at -2m to keep the bottom |
| GenericTransform.Cutter | src/build123d/build_generic.py:519-529 | a cutter is a solid |
| GenericTransform.Cutters | src/build123d/build_generic.py:551-556 | two solids when both halves are kept, else one |
| GenericTransform.BothIsTopAndBottom | src/build123d/build_generic.py:552-554 | keeping both halves uses the top cutter and then the bottom one |
| GenericTransform.SplitCalls | src/build123d/build_generic.py:535-560 | fails (AttributeError) exactly when the only input is a None builder object. Otherwise one merge in the caller's mode whose i-th shape is input i intersected with the cutters sized by input i's bounding-box diagonal, and their compound |
| GenericTransform.Split | src/build123d/build_generic.py:519-560 | the calls made and the compound are those of the specification |
| GenericOffset.OffsetIgnoresOtherClasses | src/build123d/build_generic.py:388-398 | vertices, wires and shells contribute nothing to the offset |
| GenericOffset.BinnedMembers | src/build123d/build_generic.py:388-398 | each bin holds exactly the inputs of its class and that class's members of the compound inputs |
| GenericOffset.OffsetFace | src/build123d/build_generic.py:401-406 | IndexError exactly when the outer wire has no offset; otherwise a face |
| GenericOffset.OffsetFacesFailures | src/build123d/build_generic.py:400-406 | the face loop succeeds exactly when every face has an offset, and fails with IndexError |
| GenericOffset.OffsetFacesValues | src/build123d/build_generic.py:400-406 | on success one offset face per face, in order |
| GenericOffset.OffsetWires | src/build123d/build_generic.py:407-414 | ValueError exactly for a single edge; no edge gives no wire; otherwise wires |
| GenericOffset.OffsetCalls | src/build123d/build_generic.py:375-433 | on success one merge in the caller's mode, and the operation is the compound of what it merges |
| GenericOffset.OffsetFailures | src/build123d/build_generic.py:375-433 | fails exactly when some face has no offset (IndexError, raised first) or there is a single edge (ValueError) |
| GenericOffset.OffsetSingleEdgeFails | src/build123d/build_generic.py:407-409 | offsetting one edge raises ValueError |
| GenericOffset.OffsetWithoutObject | src/build123d/build_generic.py:375-398 | no objects in a builder that holds nothing: the lone None is skipped, the merge is empty and so is the compound |
| GenericOffset.OffsetOutput | src/build123d/build_generic.py:400-433 | on success one merge, in the caller's mode, of the offset wires, the offset faces and the shells, in that order. There is one offset face per face and one shell per solid |
| GenericOffset.ShellOpenings | src/build123d/build_generic.py:416-429 | each solid is shelled open exactly at the given openings that are its own faces, and closed with no openings |
| GenericOffset.Offset | src/build123d/build_generic.py:375-433 | the calls made and the compound are those of the specification |
| GenericOffset.Sort | src/build123d/build_generic.py:388-398 | the classification loop computes exactly the bins |
| GenericOffset.OffsetEachFace | src/build123d/build_generic.py:400-406 | the face loop computes exactly the offset faces, stopping at the first face without one |
| GenericOffset.ShellEach | src/build123d/build_generic.py:419-429 | the solid loop computes exactly the shells |
| GenericOffset.OffsetFacesSticks | src/build123d/build_generic.py:400-406 | once a face failed, more faces change nothing |

## Left out

- Geometry: the kernel is uninterpreted. No property of booleans, offsets, fillets, hulls or bounding boxes is modelled beyond the class of the result where cadquery fixes it.
- I/O: printing and logging are left out. `cq3.py` prints at many places, and build_sketch logs around the merge.
- Global state: the current-builder and location stacks of build_common become explicit inputs (`Context`, `locations`). `validate_inputs` is not part of this model. Neither are the context-manager entry and exit, nor how BuildPart and BuildLine carry out the calls they receive.
- Monkey patching: the sort-key helpers and operator overloads that `cq3.py` patches onto cadquery classes are modelled only as the keys the selectors use.
- Build3D.loft: left out. It subscripts the bound selector method, `self.faces[i]` (cq3.py:475, `faces` being the method at line 287), so it raises TypeError before it builds a loft or reaches `place_solids`.
- Build3D.fillet: left out. It replaces `working_solid` by the kernel's fillet of it directly (cq3.py:484-485), with no mode, no `place_solids` and no recorded delta.
- Build3D.faces_to_workplanes: left out. It calls `workplane` once per face, and `workplane` is modelled.
- Build2D.assemble_edges and Build2D.hull_edges: left out. Each builds a face with the kernel and then calls `self.add(pending_face, mode, tag)` (cq3.py:518, 525). `Build2D.add` takes no `tag` (line 505), so both raise TypeError there, before `place_face` and before the pending edges are cleared.
- Build1D.Polyline: the `forConstruction` flag set on each new edge is not modelled.
- Ellipse, RegularPolygon, the four slot objects and Text: left out. They follow the same broadcast as `Circle` and `Rectangle` (`Sketch.PlaceFaces`) with other kernel constructions. This also covers `BuildSketch._get_context` and the `_obj_name` property. The `_obj` property (the sketch, None until the first merge) is what a generic operation sees as the optional `Generic.Context.obj`.
- Sketch.BuildSketch.constructor: the source never sets `last_vertices` and `last_edges` in the constructor, so reading them before the first merge raises AttributeError. The model starts them empty.
- Sketch.Dressed: `locate` is modelled as `located`, that is, placing the shape at an absolute location.
- Sketch.Reduction: the tangent of the angle is a parameter, because floating-point trigonometry is not modelled. A zero tangent raises ZeroDivisionError.
- Cq3.Sort: the model is an insertion sort. Its ascending and permutation contracts are what `sorted` promises, but it does not show that equal keys keep their order.
- Cq3.Build3D.ExtrudeSolids: `extrude` iterates over the items of the faces table, which only ever has key 0, so the model reads workplane 0 directly.
- Cq3.Build3D.Select: the three selectors raise the same message ("Unable to sort edges by ...") for an unsupported key, as in the source.
- GenericAdd.PartFailure: a numeric rotation under BuildPart reaches `obj.moved(float)`. That is modelled as AttributeError, the error cadquery's `moved` raises without a location.
- GenericTransform.MirrorCalls: the ValueError text for a None object is that of cadquery's `Plane.toLocalCoords`, which is not part of this model. The AttributeError of `Scale` and `Split` on a None object carries no message in the model.
- GenericTransform.Factor: Python's `bool` counts as a number in `isinstance(by, (int, float))`, and so does it in the model's `Number` items. The model does not tell booleans apart.
- GenericTransform.ScaleMatrix: matrices are given meaning only by their action on points (`Apply`). How `transformGeometry` uses them is up to the kernel.
- GenericTreat.SketchChamferIgnoresLength2: this records what the source does (line 244 passes only `length`); it is not treated as a defect.

## Findings

| source | as written | input that shows it | evidently intended | confidence | as-written member | corrected member |
|---|---|---|---|---|---|---|
| src/build123d/build_sketch.py:203 | `BuildFace` calls `context._add_to_context(pending_face, mode)`, passing `mode` positionally. It joins `*objects`, every class filter drops it, and the merge runs under the default ADD. Line 227 in `BuildHull` does the same | `BuildFace(mode=Mode.PRIVATE)` (or SUBTRACT) in an empty sketch. The face is added to the sketch instead of being kept private, or instead of raising "No sketch to subtract from" | the merge uses the caller's `mode` (`mode=mode`) | not executed | Sketch.BuildFaceAsWritten, Sketch.BuildHullAsWritten, Sketch.PositionalModeIsIgnored | Sketch.BuildFace, Sketch.BuildHull, Sketch.ConsumePendingClearsEdges |
| cq3.py:380 | `place_solids` fuses into an empty builder with `new_solids.pop().fuse(*new_solids)`. The pop mutates the caller's list, so `extrude` and `revolve` (lines 428-430, 466-468) return a list without its last solid | `extrude(until, both=True)` of one face in an empty builder builds two solids but returns only the first one, alone | the caller's list is left intact and every built solid is returned | not executed | Cq3.Build3D.ExtrudeAsWritten, Cq3.Build3D.RevolveAsWritten, Cq3.PopLosesLastSolid | Cq3.Build3D.Extrude, Cq3.Build3D.Revolve, Cq3.ExtrudeReturnsAllSolids |
