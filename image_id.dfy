/**
 * The identity of an image resource (`image::Id`). An id is either derived
 * from a path, the same path always giving the same id, or handed out by a
 * process-wide counter that never hands out the same id twice.
 *
 * The `image` module itself is not part of this model: the hash behind a
 * path-derived id is a placeholder (any deterministic function of the path
 * would do), and the counter is an object whose field stands for the
 * process-wide atomic.
 */
module ImageId {

  /** A path-derived id carries a hash of the path; a unique id carries its serial number. */
  datatype Id = Hashed(hash: nat) | Unique(serial: nat)

  const HashModulus: nat := 0x1_0000_0000_0000_0000

  /** Placeholder for the 64-bit hash of a path; only its determinism is relied upon. */
  function PathHash(path: string): (h: nat)
    ensures h < HashModulus
    decreases |path|
  {
    if path == [] then 0
    else (PathHash(path[..|path| - 1]) * 31 + path[|path| - 1] as int) % HashModulus
  }

  /** `Id::path`: the id of the resource found at `path`. */
  function PathId(path: string): (id: Id)
    ensures id.Hashed? && id.hash < HashModulus
  {
    Hashed(PathHash(path))
  }

  /**
   * Two paths that are equal give the same id, so caches keyed on ids see one
   * resource. This holds because `PathId` is a function of the path alone.
   */
  lemma PathIdDeterministic(p: string, q: string)
    requires p == q
    ensures PathId(p) == PathId(q)
  {
  }

  /** A path-derived id is never one the counter hands out. */
  lemma PathIdIsNeverUnique(path: string, serial: nat)
    ensures PathId(path) != Unique(serial)
  {
  }

  /**
   * The process-wide source of `Id::unique()`. `next` is the value the counter
   * hands out next; `issued` records every id handed out so far.
   */
  class IdGenerator {
    var next: nat
    ghost var issued: set<Id>

    ghost predicate Valid()
      reads this
    {
      forall id | id in issued :: id.Unique? && id.serial < next
    }

    constructor ()
      ensures Valid()
      ensures next == 0 && issued == {}
    {
      next := 0;
      issued := {};
    }

    /** `Id::unique()`: an id different from every id issued before. */
    method Unique() returns (id: Id)
      requires Valid()
      modifies this
      ensures Valid()
      ensures id.Unique? && id !in old(issued)
      ensures issued == old(issued) + {id}
      ensures next == old(next) + 1
    {
      id := Id.Unique(next);
      next := next + 1;
      issued := issued + {id};
    }
  }
}
