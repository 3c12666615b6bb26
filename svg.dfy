/**
 * Vector images: the payload of an image (`Data`), the handle that gives it an
 * identity (`Handle`), and the draw request built from a handle (`Svg`).
 *
 * A handle made from a path takes the id derived from that path; one made from
 * bytes or from a parsed tree takes a fresh id from the generator. Handles are
 * equal, and hash alike, exactly when their ids are equal; the payload is never
 * compared. A handle is an immutable value here: every clone shares its id and
 * its data.
 */
module Svg {
  import opened ImageId
  import opened Wrappers
  import DebugText

  /** A parsed document of the vector-graphics library, opaque to this core. */
  type SvgTree(==)

  /** The payload behind a handle. */
  datatype Data =
    | Path(path: string)
    | Bytes(bytes: seq<bv8>)
    | Tree(tree: SvgTree)

  /** The `Debug` text of the payload: a path is shown, bytes and trees are not. */
  function DataDebug(d: Data): (r: string)
    ensures d.Bytes? <==> r == "Bytes(...)"
    ensures d.Tree? <==> r == "Tree(...)"
    ensures d.Path? <==> |r| >= 8 && r[..6] == "Path(\"" && r[|r| - 2..] == "\")"
  {
    match d
    case Path(p) =>
      var r := "Path(" + DebugText.Quote(p) + ")";
      assert r[0] == 'P';
      r
    case Bytes(_) => "Bytes(...)"
    case Tree(_) => "Tree(...)"
  }

  /** Reads the path back from the `Debug` text of a `Path` payload. */
  function PathFromDebug(r: string): Option<string> {
    if |r| >= 6 && r[..5] == "Path(" && r[|r| - 1] == ')' then DebugText.Unquote(r[5..|r| - 1])
    else None
  }

  /** The `Debug` text of a path payload shows exactly that path. */
  lemma PathDebugRoundTrip(p: string)
    ensures PathFromDebug(DataDebug(Path(p))) == Some(p)
  {
    var r := DataDebug(Path(p));
    assert r[5..|r| - 1] == DebugText.Quote(p);
    DebugText.QuoteRoundTrip(p);
  }

  /** Two payloads of the same kind print the same unless they are paths, and different paths print differently. */
  lemma DebugShowsOnlyPaths(d: Data, d': Data)
    ensures d.Bytes? && d'.Bytes? ==> DataDebug(d) == DataDebug(d')
    ensures d.Tree? && d'.Tree? ==> DataDebug(d) == DataDebug(d')
    ensures d.Path? && d'.Path? ==> (DataDebug(d) == DataDebug(d') <==> d == d')
  {
    if d.Path? && d'.Path? && DataDebug(d) == DataDebug(d') {
      PathDebugRoundTrip(d.path);
      PathDebugRoundTrip(d'.path);
    }
  }

  /** A handle: an id and the (shared, immutable) payload it stands for. */
  datatype Handle = Handle(id: Id, data: Data) {

    /** Handles are the same resource exactly when their ids are equal. */
    predicate Equals(other: Handle) {
      id == other.id
    }

    /** What a handle feeds to a hasher: its id and nothing else. */
    function Hash<S>(write: (S, Id) -> S, state: S): S {
      write(state, id)
    }

    /** A clone shares the id and the payload. */
    function Clone(): (c: Handle)
      ensures c.id == id && c.data == data
      ensures c.Equals(this)
    {
      this
    }
  }

  /** `Handle::from_path`: a handle on the file at `p`, with the id derived from `p`. */
  function FromPath(p: string): (h: Handle)
    ensures h.data == Path(p)
    ensures h.id == PathId(p)
  {
    Handle(PathId(p), Path(p))
  }

  /** Converting any path-like value into a handle is `FromPath`. */
  function HandleFrom(p: string): (h: Handle)
    ensures h == FromPath(p)
  {
    FromPath(p)
  }

  /**
   * `Handle::from_data`: a path payload gets its path-derived id and leaves the
   * generator alone; bytes and trees get an id never issued before.
   */
  method FromData(gen: IdGenerator, data: Data) returns (h: Handle)
    requires gen.Valid()
    modifies gen
    ensures gen.Valid()
    ensures h.data == data
    ensures data.Path? ==> h == FromPath(data.path)
    ensures data.Path? ==> gen.next == old(gen.next) && gen.issued == old(gen.issued)
    ensures !data.Path? ==> h.id.Unique? && h.id !in old(gen.issued)
    ensures !data.Path? ==> gen.issued == old(gen.issued) + {h.id}
  {
    match data
    case Path(p) =>
      h := FromPath(p);
    case _ =>
      var id := gen.Unique();
      h := Handle(id, data);
  }

  /** `Handle::from_memory`: bytes get a fresh id, even when the same bytes were used before. */
  method FromMemory(gen: IdGenerator, bytes: seq<bv8>) returns (h: Handle)
    requires gen.Valid()
    modifies gen
    ensures gen.Valid()
    ensures h.data == Bytes(bytes)
    ensures h.id.Unique? && h.id !in old(gen.issued)
    ensures gen.issued == old(gen.issued) + {h.id}
  {
    h := FromData(gen, Bytes(bytes));
  }

  /** `Handle::from_tree`: a parsed tree gets a fresh id. */
  method FromTree(gen: IdGenerator, tree: SvgTree) returns (h: Handle)
    requires gen.Valid()
    modifies gen
    ensures gen.Valid()
    ensures h.data == Tree(tree)
    ensures h.id.Unique? && h.id !in old(gen.issued)
    ensures gen.issued == old(gen.issued) + {h.id}
  {
    h := FromData(gen, Tree(tree));
  }

  /** The same bytes supplied twice are two resources, and neither is a path resource. */
  method FromMemoryTwice(gen: IdGenerator, bytes: seq<bv8>, p: string) returns (a: Handle, b: Handle)
    requires gen.Valid()
    modifies gen
    ensures gen.Valid()
    ensures a.data == b.data == Bytes(bytes)
    ensures !a.Equals(b)
    ensures !a.Equals(FromPath(p)) && !b.Equals(FromPath(p))
    ensures a.id !in old(gen.issued) && b.id !in old(gen.issued)
    ensures gen.issued == old(gen.issued) + {a.id, b.id}
  {
    a := FromMemory(gen, bytes);
    b := FromMemory(gen, bytes);
  }

  /**
   * The same path supplied twice is one resource: the handles are equal and
   * hash alike. This holds because `FromPath` is a function of the path alone.
   */
  lemma FromPathTwice<S>(p: string, q: string, write: (S, Id) -> S, state: S)
    requires p == q
    ensures FromPath(p).Equals(FromPath(q))
    ensures FromPath(p).Hash(write, state) == FromPath(q).Hash(write, state)
  {
  }

  /** Handle equality is an equivalence relation. */
  lemma EqualsIsEquivalence(a: Handle, b: Handle, c: Handle)
    ensures a.Equals(a)
    ensures a.Equals(b) <==> b.Equals(a)
    ensures a.Equals(b) && b.Equals(c) ==> a.Equals(c)
  {
  }

  /** Equality looks only at ids: handles with the same id are equal whatever their payloads. */
  lemma EqualsIgnoresData(id: Id, d: Data, d': Data)
    ensures Handle(id, d).Equals(Handle(id, d'))
  {
  }

  /** Equal handles hash alike, whatever the hasher. */
  lemma EqualHandlesHashAlike<S>(a: Handle, b: Handle, write: (S, Id) -> S, state: S)
    requires a.Equals(b)
    ensures a.Hash(write, state) == b.Hash(write, state)
  {
  }

  /** The hash of a handle does not depend on its payload. */
  lemma HashIgnoresData<S>(id: Id, d: Data, d': Data, write: (S, Id) -> S, state: S)
    ensures Handle(id, d).Hash(write, state) == Handle(id, d').Hash(write, state)
  {
  }

  /** A path without characters that need escaping is printed verbatim. */
  lemma PlainPathDebug(p: string)
    requires forall i | 0 <= i < |p| :: DebugText.IsPlain(p[i])
    ensures DataDebug(Path(p)) == "Path(\"" + p + "\")"
  {
    DebugText.EscapePlain(p);
  }

  /** A single quote in a path is escaped: `it's` prints as `Path("it\'s")`. */
  lemma ApostrophePathDebug()
    ensures DataDebug(Path("it's")) == "Path(\"it\\'s\")"
  {
  }

  /** An RGBA color. */
  datatype Color = Color(r: real, g: real, b: real, a: real)

  /** An angle in radians. */
  datatype Radians = Radians(angle: real)

  /** A draw request: a handle and the modifiers applied when it is drawn. */
  datatype Svg = Svg(handle: Handle, color: Option<Color>, rotation: Radians, opacity: real) {

    /** `Svg::new`: no color filter, no rotation, fully opaque. */
    static function New(handle: Handle): (s: Svg)
      ensures s.handle == handle
      ensures s.color == None && s.rotation == Radians(0.0) && s.opacity == 1.0
    {
      Svg(handle, None, Radians(0.0), 1.0)
    }

    /** Sets the color filter; nothing else changes. */
    function SetColor(c: Color): (s: Svg)
      ensures s.color == Some(c)
      ensures s.handle == handle && s.rotation == rotation && s.opacity == opacity
    {
      this.(color := Some(c))
    }

    /** Sets the rotation; nothing else changes. */
    function SetRotation(r: Radians): (s: Svg)
      ensures s.rotation == r
      ensures s.handle == handle && s.color == color && s.opacity == opacity
    {
      this.(rotation := r)
    }

    /** Sets the opacity, as given and unclamped; nothing else changes. */
    function SetOpacity(o: real): (s: Svg)
      ensures s.opacity == o
      ensures s.handle == handle && s.color == color && s.rotation == rotation
    {
      this.(opacity := o)
    }
  }

  /** `Svg::from(&handle)`: a default request on a clone of the handle. */
  function SvgFrom(h: Handle): (s: Svg)
    ensures s == Svg.New(h.Clone())
    ensures s.handle.Equals(h) && s.handle.data == h.data
    ensures s.color == None && s.rotation == Radians(0.0) && s.opacity == 1.0
  {
    Svg.New(h.Clone())
  }

  /** The last write to a field wins. */
  lemma SettersLastWriteWins(s: Svg, c: Color, c': Color, r: Radians, r': Radians, o: real, o': real)
    ensures s.SetColor(c).SetColor(c') == s.SetColor(c')
    ensures s.SetRotation(r).SetRotation(r') == s.SetRotation(r')
    ensures s.SetOpacity(o).SetOpacity(o') == s.SetOpacity(o')
  {
  }

  /** Setters of different fields can be applied in either order. */
  lemma SettersCommute(s: Svg, c: Color, r: Radians, o: real)
    ensures s.SetColor(c).SetRotation(r) == s.SetRotation(r).SetColor(c)
    ensures s.SetColor(c).SetOpacity(o) == s.SetOpacity(o).SetColor(c)
    ensures s.SetRotation(r).SetOpacity(o) == s.SetOpacity(o).SetRotation(r)
  {
  }

  /** A fully configured request carries every value it was given and the handle unchanged. */
  lemma BuilderChain(h: Handle, c: Color, r: Radians, o: real)
    ensures Svg.New(h).SetColor(c).SetRotation(r).SetOpacity(o) == Svg(h, Some(c), r, o)
  {
  }
}
