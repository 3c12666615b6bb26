# Vector-image handles and draw requests

A model of the vector-graphics (`svg`) core of the iced GUI library's `core`
crate. The core decides how a vector image is identified:

- A `Handle` pairs an `Id` with the image's payload, a `Data` that is a file
  path, in-memory bytes or an already parsed document tree.
- A handle built from a path takes the id derived from that path. The same
  path always gives the same id, so render caches see one resource.
- A handle built from bytes or from a tree takes a fresh id from a process-wide
  counter. The same bytes supplied twice are two resources.
- Handles are equal, and hash alike, exactly when their ids are equal. The
  payload is never compared.
- The `Debug` text of a payload shows a path, quoted and escaped, and hides
  bytes and trees behind constant texts.
- An `Svg` draw request is a record with a handle, an optional color filter,
  a rotation and an opacity. It has fixed defaults and one setter per field.

Files:

- `wrappers.dfy`: the shared `Option` type.
- `image_id.dfy` (module `ImageId`): the id. There are two kinds of id:
  `Hashed`, derived from a path, and `Unique`, taken from the counter. A class
  `IdGenerator` holds the counter (`next`) and a ghost record of every id it has
  issued. `Unique()` is the only operation that changes state.
- `debug_text.dfy` (module `DebugText`): how `{:?}` writes a path, and
  `Unescape`/`Unquote`, which read that text back. Proving the round trip shows
  that the text determines the path.
- `svg.dfy` (module `Svg`): `Data`, `Handle`, the handle constructors, equality
  and hashing, the `Debug` text of `Data`, and the `Svg` request with its
  setters.

`Handle::from_path` is a pure function here (`FromPath`). `from_data`,
`from_memory` and `from_tree` are methods that take the generator, because
they advance it. A handle is an immutable value, so a clone is the same value,
with the same id and the same payload. The accessors `id()` and `data()` are
the datatype's field selectors `id` and `data`.

`from_data` passes the path unchanged to `Id::path` (core/src/svg.rs:102);
whatever `Id::path` does with it beyond hashing is not modelled.

All handles of a process are built from one `IdGenerator`, which stands for
the process-wide counter. Freshness is stated relative to that generator: two
separately constructed generators would both issue `Unique(0)`.

## Model

| member | source | states |
|---|---|---|
| ImageId.PathId | core/src/svg.rs:101-102 | a path payload's id is a path-derived (`Hashed`) id |
| ImageId.PathIdDeterministic | core/src/svg.rs:101-102 | equal paths give equal ids |
| ImageId.PathIdIsNeverUnique | core/src/svg.rs:101-103 | a path-derived id never equals an id from the counter |
| ImageId.IdGenerator.constructor | core/src/svg.rs:103 | the counter starts at 0 with no id issued, so the generator invariant holds from the start |
| ImageId.IdGenerator.Unique | core/src/svg.rs:103 | the id returned was never issued before; the issued set grows by exactly that id; the generator invariant is kept |
| Svg.FromPath | core/src/svg.rs:82-84 | `data()` is `Path(p)` and `id()` is the id derived from `p` |
| Svg.HandleFrom | core/src/svg.rs:122-129 | converting a path-like value gives exactly `FromPath` of it |
| Svg.FromData | core/src/svg.rs:100-109 | `data()` is the payload given; a path takes its path id and leaves the generator untouched; bytes and trees take a never-issued unique id, which is added to the issued set |
| Svg.FromMemory | core/src/svg.rs:91-93 | `data()` is `Bytes(b)` and the id is fresh: never issued before, now recorded |
| Svg.FromTree | core/src/svg.rs:96-98 | `data()` is `Tree(t)` and the id is fresh: never issued before, now recorded |
| Svg.FromMemoryTwice | core/src/svg.rs:100-104 | the same bytes made into handles twice give two unequal handles; neither equals any path handle; both ids are new and now recorded as issued |
| Svg.FromPathTwice | core/src/svg.rs:131-141 | two handles from the same path are equal and hash alike under any hasher |
| Svg.Handle.Clone | core/src/svg.rs:73-77 | a clone has the same id and the same payload, and equals the original |
| Svg.Handle.Equals | core/src/svg.rs:137-141 | `PartialEq::eq`: handles are equal exactly when their ids are; its properties are the lemmas below |
| Svg.Handle.Hash | core/src/svg.rs:131-135 | `Hash::hash`: the handle writes its id, and nothing else, into the hasher state |
| Svg.EqualsIsEquivalence | core/src/svg.rs:137-143 | handle equality is reflexive, symmetric and transitive |
| Svg.EqualsIgnoresData | core/src/svg.rs:137-141 | handles with the same id are equal whatever their payloads |
| Svg.EqualHandlesHashAlike | core/src/svg.rs:131-135 | equal handles hash alike under any hasher and any starting state |
| Svg.HashIgnoresData | core/src/svg.rs:131-135 | the hash of a handle does not depend on its payload |
| Svg.DataDebug | core/src/svg.rs:159-167 | the text is `Bytes(...)` exactly for bytes and `Tree(...)` exactly for trees; a path prints as `Path("` … `")` |
| Svg.DebugShowsOnlyPaths | core/src/svg.rs:159-167 | all byte payloads print alike, all tree payloads print alike, and two path payloads print alike only if the paths are equal |
| Svg.PathDebugRoundTrip | core/src/svg.rs:162 | the path can be read back from the `Debug` text of a path payload |
| Svg.PlainPathDebug | core/src/svg.rs:162 | a path with no character that needs escaping prints as `Path("` + path + `")` |
| Svg.ApostrophePathDebug | core/src/svg.rs:162 | a single quote in a path is escaped: `it's` prints as `Path("it\'s")` |
| DebugText.Quote | core/src/svg.rs:162 | `{path:?}`: the escaped path between double quotes |
| DebugText.Escape | core/src/svg.rs:162 | the escaped text is at least as long as the path, each character giving one or more |
| DebugText.EscapeChar | core/src/svg.rs:162 | a character is written either as itself or as an escape of two or more characters |
| DebugText.EscapeRoundTrip | core/src/svg.rs:162 | unescaping the escaped text of a string gives back that string |
| DebugText.QuoteRoundTrip | core/src/svg.rs:162 | unquoting the `{:?}` text of a string gives back that string |
| DebugText.QuoteInjective | core/src/svg.rs:162 | different paths have different `{:?}` texts |
| DebugText.EscapePlain | core/src/svg.rs:162 | characters other than backslash, the two quotes and ASCII controls are written as themselves |
| Svg.Svg.New | core/src/svg.rs:38-45 | the request carries the given handle, no color, rotation 0 and opacity 1 |
| Svg.Svg.SetColor | core/src/svg.rs:48-51 | color becomes `Some(c)`; handle, rotation and opacity are unchanged |
| Svg.Svg.SetRotation | core/src/svg.rs:54-57 | rotation becomes `r`; handle, color and opacity are unchanged |
| Svg.Svg.SetOpacity | core/src/svg.rs:60-63 | opacity becomes `o`, unclamped; handle, color and rotation are unchanged |
| Svg.SvgFrom | core/src/svg.rs:66-70 | the request is `New` of a clone: equal to the handle, same payload, default modifiers |
| Svg.SettersLastWriteWins | core/src/svg.rs:48-63 | setting a field twice is the same as setting it once to the last value |
| Svg.SettersCommute | core/src/svg.rs:48-63 | setters of different fields give the same request in either order |
| Svg.BuilderChain | core/src/svg.rs:38-63 | `New(h)` followed by color, rotation and opacity carries exactly those four values |

## Left out

- The `Renderer` trait (`measure_svg`, `draw_svg`, core/src/svg.rs:172-178). It declares a backend interface with no body here; its work is parsing, rasterising and drawing.
- The hash behind `Id::path`. The `image` module is not part of this model. `ImageId.PathHash` is a placeholder deterministic function, and no contract depends on how it is defined. The model claims nothing about collisions between different paths. Any fact about two different paths that follows from unfolding `PathHash` carries no meaning for the source: the real hash of a path skips repeated separators and `.` components, so `a/b` and `a//b` get the same id there.
- ImageId.IdGenerator.Unique: the counter is an unbounded `nat`. The wrap-around of a 64-bit atomic counter after 2^64 ids is not modelled, and neither is its atomicity across threads.
- `Arc` sharing and reference counting. Payloads are immutable values, so a clone is the same value.
- `Cow`, `PathBuf` and the `Into` conversions. A path is a `string`, bytes are `seq<bv8>`. `Svg::new` takes a `Handle`; turning a path into a handle is `Svg.HandleFrom`. The `Into<Color>`, `Into<Radians>` and `Into<f32>` conversions of the setters are identities.
- `f32` and `Radians` arithmetic. Opacity, rotation and color channels are `real` and are only stored. For the same reason the derived `PartialEq` of `Svg` (core/src/svg.rs:13) is not modelled: it compares `f32` values, and NaN is not equal to itself.
- The contents of a parsed `usvg::Tree`. `Svg.SvgTree` is an opaque type.
- DebugText.EscapeChar: ASCII characters are escaped as in Rust's `Debug` of a path. Non-ASCII characters are not: Rust writes non-printable non-ASCII characters and grapheme extenders as `\u{..}`, but the model writes every non-ASCII character as itself. On Unix, Rust also writes an invalid UTF-8 byte of a path as `\xNN`; the model's paths are strings, so they have no such bytes.
- The derived `Debug` of `Svg` and `Handle` (core/src/svg.rs:13, 73). Only the hand-written `Debug` of `Data` is modelled.
