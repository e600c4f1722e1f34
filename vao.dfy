/**
 * Space3d::Vao: the exclusive owner of one vertex-array name.  A `ref` of 0
 * owns nothing.  Moving hands the name over and leaves the source at 0, so a
 * name is never owned twice and the destructor frees only a nonzero name.
 */
module Vao {
  import opened Gl

  class Vao {
    var ref: nat

    /** The owned name is 0 or live: the owner may still free it. */
    ghost predicate Valid(gl: Context)
      reads this, gl`vertexArrays
    {
      ref == 0 || ref in gl.vertexArrays
    }

    /** Vao(): acquires a fresh vertex-array name. */
    constructor (gl: Context)
      requires gl.Valid()
      modifies gl`next, gl`vertexArrays
      ensures gl.Valid() && Valid(gl)
      ensures ref != 0 && ref !in old(gl.vertexArrays) && gl.vertexArrays == old(gl.vertexArrays) + {ref}
      ensures ref !in gl.vertexArrayState
      ensures gl.TargetsKept() && gl.DrawingKept()
    {
      var h := gl.GenVertexArray();
      ref := h;
    }

    /** ~Vao(): deletes the owned name when it is nonzero, and does nothing otherwise. */
    method Destroy(gl: Context)
      requires gl.Valid() && Valid(gl)
      modifies gl`vertexArrays, gl`vertexArrayState, gl`vertexArrayBinding
      ensures gl.Valid()
      ensures gl.vertexArrays == old(gl.vertexArrays) - {ref}
      ensures gl.vertexArrayState == old(gl.vertexArrayState) - {ref}
      ensures ref == 0 ==> gl.vertexArrayBinding == old(gl.vertexArrayBinding)
      ensures ref != 0 ==> gl.vertexArrayBinding == if old(gl.vertexArrayBinding) == ref then 0 else old(gl.vertexArrayBinding)
      ensures gl.TargetsKept() && gl.DrawingKept()
    {
      if ref != 0 {
        gl.DeleteVertexArray(ref);
      }
    }

    /** bind(): the owned name becomes the current vertex array. */
    method Bind(gl: Context)
      requires gl.Valid()
      modifies gl`vertexArrayBinding, gl`error
      ensures gl.Valid()
      ensures Valid(gl) ==> gl.vertexArrayBinding == ref && gl.error == old(gl.error)
      ensures !Valid(gl) ==> gl.vertexArrayBinding == old(gl.vertexArrayBinding) && gl.error == Raised(old(gl.error), InvalidOperation)
      ensures gl.TargetsKept() && gl.DrawingKept()
    {
      gl.BindVertexArray(ref);
    }

    /** swap(other): exchanges the two owned names. */
    method Swap(other: Vao)
      modifies this, other
      ensures ref == old(other.ref) && other.ref == old(ref)
    {
      ref, other.ref := other.ref, ref;
    }

    /** Vao(Vao&& other): takes over the name of `other`, which is left owning nothing. */
    constructor Move(other: Vao)
      modifies other
      ensures ref == old(other.ref) && other.ref == 0
    {
      ref := 0;
      new;
      Swap(other);
    }

    /** operator=(Vao&& other): a swap, except that assigning an owner to itself changes nothing. */
    method MoveAssign(other: Vao)
      modifies this, other
      ensures other == this ==> ref == old(ref)
      ensures other != this ==> ref == old(other.ref) && other.ref == old(ref)
      ensures Distinct(this, other) == old(Distinct(this, other))
    {
      if this != other {
        Swap(other);
      }
    }
  }

  /** Two different owners never own the same nonzero name. */
  ghost predicate Distinct(a: Vao, b: Vao)
    reads a, b
  {
    a != b ==> a.ref == 0 || a.ref != b.ref
  }
}
