# structeasy in Dafny

A model of the two core files of structeasy, a small Python helper for building frame models for
the OpenSees solver. It covers the geometry records (`Node` and `Element`: a point with an
identifier and a physical-group tag, and a line member that references its nodes), the import of
a gmsh geometry into node and element dictionaries, the colour, label and trace rules of the 3D
plot, and the dimension dispatch that starts a solver model.

- `wrappers.dfy` (module `Wrappers`): `Option`, `Result`, and the Python exceptions the code raises
  (`IndexError`, `KeyError`, `NameError`).
- `structeasy_class.dfy` (module `StructeasyClass`): the `Node` and `Element` classes, the squared
  element length and the out-of-plane vector `VecXZ`, with the vector facts they rest on.
- `structeasy_lib.dfy` (module `StructeasyLib`): the tag lookup, the import loops, the plot, and
  the solver-model start.

The modelled system talks to three outside libraries, and none of them is modelled:

- The mesh engine (gmsh). The answers to its queries are passed in as a `GeoModel` value: the
  point and line entities, the physical groups and their members, point coordinates and line
  boundaries.
- The charting library (plotly). The plot is modelled as the list of traces it hands over.
- The solver (openseespy). `StartModel` returns the dimensions it would pass to the solver.

## Model

| member | source | states |
|---|---|---|
| StructeasyClass.Node.constructor | structeasy_class.py:3-12 | every field is the given value; the classifier defaults to 0; `coord` is the triple (x, y, z); both containers start empty |
| StructeasyClass.Element.constructor | structeasy_class.py:16-24 | given at least two nodes: every field is the given value; the classifier defaults to 1; `nodei`/`nodej` are the numbers of the first two nodes; both containers start empty |
| StructeasyClass.Element.Make | structeasy_class.py:16-20 | creating an Element fails with IndexError exactly when fewer than two nodes are given; otherwise it yields a fresh, valid Element holding the given values |
| StructeasyClass.Element.SquaredLength | structeasy_class.py:26-33 | undefined exactly when the element does not have two nodes; otherwise the squared distance between them, which is never negative and is zero for coincident nodes |
| StructeasyClass.Element.VecXZ | structeasy_class.py:35-41 | the axis (first node to second) crossed with the reference vector, orthogonal to both the axis and the reference vector; the reference defaults to the global vertical |
| StructeasyClass.VecXZDefault | structeasy_class.py:35-40 | with the default vertical reference the result is (dy, -dx, 0) for axis (dx, dy, dz) |
| StructeasyClass.VecXZDegenerateIffVertical | structeasy_class.py:35-40 | with the default reference the result is the zero vector if and only if the axis is vertical |
| StructeasyClass.VecXZParallel | structeasy_class.py:39-40 | an axis that is a multiple of the reference vector gives the zero vector |
| StructeasyClass.VecXZFirstTwoNodes | structeasy_class.py:39-40 | the result depends only on the coordinates of the first two nodes |
| StructeasyClass.SquaredLengthSwap | structeasy_class.py:28-31 | listing the two nodes in the other order gives the same length |
| StructeasyClass.SquaredLengthExample | structeasy_class.py:29-31 | nodes at (0,0,0) and (3,4,0) have squared length 25 |
| StructeasyLib.GroupTag | structeasy_lib.py:30-37 | the tag of an entity: the id of the last group of its dimension that contains it, or -1; described by GroupTagLastMatch and GroupTagSound |
| StructeasyLib.GroupTagLastMatch | structeasy_lib.py:30-37 | the tag is -1 when no group of that dimension contains the entity; otherwise it is the id of a containing group with no containing group after it (the last match wins) |
| StructeasyLib.GroupTagSound | structeasy_lib.py:30-37 | any tag other than -1 is the id of a group of that dimension that contains the entity |
| StructeasyLib.AssignTag | structeasy_lib.py:30-37 | the scan over the groups returns the last-match tag defined by `GroupTag` |
| StructeasyLib.FirstMissing | structeasy_lib.py:56 | none exactly when every boundary point is a known node; otherwise the first boundary point that is not |
| StructeasyLib.LookupNodes | structeasy_lib.py:56 | the nodes of the boundary points, in order, one per point; KeyError of the first missing point otherwise |
| StructeasyLib.BuildNodes | structeasy_lib.py:45-50 | the keys are exactly the point ids; each node is fresh and has its point's number, coordinates and group tag, classifier 0 and empty containers |
| StructeasyLib.BuildElements | structeasy_lib.py:52-58 | success exactly when every line can be built; if not, the error of the first line that cannot; on success the keys are exactly the line ids and each element is fresh, with its line's boundary nodes, its group tag, classifier "uniaxial" and empty containers |
| StructeasyLib.ImportGeofile | structeasy_lib.py:42-61 | the node and element dictionaries as above, or the KeyError/IndexError of the first line with a missing boundary point or fewer than two boundary points |
| StructeasyLib.GroupedMembers | structeasy_lib.py:87 | dropping the ungrouped marker keeps exactly the tags other than -1 |
| StructeasyLib.TagSet | structeasy_lib.py:87 | the distinct tags other than -1 of all nodes and elements; described by TagSetMembers |
| StructeasyLib.TagSetMembers | structeasy_lib.py:87 | a tag is in the colour map's tag set exactly when it is not -1 and some node or element carries it |
| StructeasyLib.TagColorMap | structeasy_lib.py:88-89 | the keys are exactly the listed tags; the k-th of n tags gets the k-th of n ramp colours, so distinct tags get distinct ramp positions |
| StructeasyLib.ColorMap | structeasy_lib.py:86-91 | empty when not colouring by tag; otherwise keyed by exactly the tags of the tag set |
| StructeasyLib.NodeColor | structeasy_lib.py:97 | a node's colour: its tag's map entry when colouring by tag, red when the tag has none or colouring is off; described by ColorRules |
| StructeasyLib.ElementColor | structeasy_lib.py:115 | an element's colour: its tag's map entry when colouring by tag, black when the tag has none or colouring is off; described by ColorRules |
| StructeasyLib.ColorRules | structeasy_lib.py:86-115 | a node is red, and an element black, exactly when colouring by tag is off or it is ungrouped; otherwise both get the ramp colour of the tag's position |
| StructeasyLib.Str | structeasy_lib.py:103 | the decimal text of an integer, with a leading minus sign when negative; described by StrRoundTrip |
| StructeasyLib.StrRoundTrip | structeasy_lib.py:103 | the decimal text of an integer reads back as that integer |
| StructeasyLib.TagLabel | structeasy_lib.py:116 | the number-and-tag label of an entity; described by TagLabelRoundTrip |
| StructeasyLib.TagLabelRoundTrip | structeasy_lib.py:116 | a number-and-tag label reads back as its number and its tag |
| StructeasyLib.EntityLabel | structeasy_lib.py:116 | no label exactly when neither numbers nor tags are shown; with tags shown the label gives back number and tag; with only numbers shown it gives back the number |
| StructeasyLib.NodeLabels | structeasy_lib.py:103 | node labels exist exactly when numbers are shown; then there is one per node, and it is that node's entity label |
| StructeasyLib.TagsAloneLabelOnlyElements | structeasy_lib.py:103-116 | with tags shown and numbers hidden, elements are labelled and nodes are not |
| StructeasyLib.Midpoint | structeasy_lib.py:119-121 | the mean of an element's node coordinates, axis by axis; described by MidpointOfTwo |
| StructeasyLib.MidpointOfTwo | structeasy_lib.py:119-121 | the label of a two-node element sits half way between its nodes |
| StructeasyLib.LineTraceOf | structeasy_lib.py:123-128 | an element's line trace: its node coordinates in order, in the element's colour; placed by ElementTraceListShape |
| StructeasyLib.LabelTraceOf | structeasy_lib.py:131-140 | an element's label trace: its label at its midpoint, in the element's colour; placed by ElementTraceListShape |
| StructeasyLib.TracesOfElement | structeasy_lib.py:131-142 | the traces appended for one element: the label trace first when labels are shown, then the line trace; described by ElementTraceListShape |
| StructeasyLib.ElementTraceList | structeasy_lib.py:110-142 | the traces of all elements, element by element in dictionary order; described by ElementTraceListShape |
| StructeasyLib.ElementTraceListShape | structeasy_lib.py:110-142 | with labels shown there are two traces per element, the label trace at its midpoint first and then the line trace; without labels there is one line trace per element; both follow dictionary order |
| StructeasyLib.ElementTraces | structeasy_lib.py:110-142 | the loop builds the trace list element by element, which has the shape stated above |
| StructeasyLib.NodeTraceOf | structeasy_lib.py:94-107 | one marker per node at its coordinates with its colour; the mode includes text exactly when numbers or tags are shown; the labels are the node labels |
| StructeasyLib.PlotModel | structeasy_lib.py:64-145 | the figure is the node trace followed by the element traces, 1 + 2n traces with labels shown and 1 + n without; numbers, tags and colouring by tag are off by default |
| StructeasyLib.StartModel | structeasy_lib.py:181-191 | success exactly for "2d" and "3d", NameError otherwise; the space dimension is the digit of the name, and the node has the rigid-body degrees of freedom (ndm translations plus ndm(ndm-1)/2 rotations) |
| StructeasyLib.StartModelCases | structeasy_lib.py:181-191 | "3d" gives (3, 6), "2d" gives (2, 3), any other name a NameError |

## Left out

- StructeasyClass.Element.SquaredLength: models the square of `length()`. Real square roots are not modelled, and it does not state that a zero length means coincident nodes.
- Floating-point rounding: coordinates are exact reals.
- A `None` z coordinate (the 2D case) is not modelled; coordinates are always three reals.
- `coord` is a value triple, not a mutable list, so aliasing of it is not modelled.
- Changing a Node's or Element's fields after construction is not modelled. Nothing in the two files does so; only the two containers are mutable.
- `Element` does not inherit from `Node` here. The source declares the subclass but never runs the Node initialiser, so an Element never gets `nnumber`, `x`, `y`, `z`, `coord` or `eltype`; the fields it shares with a Node (`tag` and the two containers) are set by its own initialiser.
- The gmsh session is not modelled: `initialize`, `open` of the file and `finalize`. Its query answers arrive in `GeoModel`, and boundary point ids are used exactly as the query returns them.
- The Python dictionaries become maps, and insertion order is not kept in them. The plot takes the dictionaries' item lists instead, which carry the order.
- Python leaves the iteration order of the tag set unspecified. `PlotModel` takes that order as the input `tagOrder`, required to list the tag set without repeats.
- The ramp colours are abstract (`Rainbow(k, n)`, the k-th of n evenly spaced colours); the matplotlib colour values and the `rgb(...)` text are not modelled. The model treats the n ramp colours as all different; the program guarantees that only up to 256 tags, because the ramp is a 256-entry colour table and each channel is cut to a whole number.
- Styling is not modelled: marker sizes, line widths, text positions, fonts, legends, the axis layout, `show_legend`, showing the figure, and `save_html`/`filename` output.
- `start_model` does not model the solver calls `wipe` and `model` or the console messages.
- `create_nodes` and `material_tester` are not part of this model: they only call into the solver and plot its results.
