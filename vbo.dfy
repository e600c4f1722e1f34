/**
 * Space3d::Vbo: the exclusive owner of one buffer-object name.  A `ref` of 0
 * owns nothing.  Moving hands the name over and leaves the source at 0, so a
 * name is never owned twice and the destructor frees only a nonzero name.
 */
module Vbo {
  import opened Gl

  class Vbo {
    var ref: nat

    /** The owned name is 0 or live: the owner may still free it. */
    ghost predicate Valid(gl: Context)
      reads this, gl`buffers
    {
      ref == 0 || ref in gl.buffers
    }

    /** Vbo(): acquires a fresh buffer name, which has no data store yet. */
    constructor (gl: Context)
      requires gl.Valid()
      modifies gl`next, gl`buffers
      ensures gl.Valid() && Valid(gl)
      ensures ref != 0 && ref !in old(gl.buffers) && gl.buffers == old(gl.buffers) + {ref}
      ensures ref !in gl.bufferStore
      ensures gl.TargetsKept() && gl.DrawingKept()
    {
      var h := gl.GenBuffer();
      ref := h;
    }

    /** ~Vbo(): deletes the owned name when it is nonzero, and does nothing otherwise. */
    method Destroy(gl: Context)
      requires gl.Valid() && Valid(gl)
      modifies gl`buffers, gl`bufferStore, gl`arrayBufferBinding
      ensures gl.Valid()
      ensures gl.buffers == old(gl.buffers) - {ref}
      ensures gl.bufferStore == old(gl.bufferStore) - {ref}
      ensures ref == 0 ==> gl.arrayBufferBinding == old(gl.arrayBufferBinding)
      ensures ref != 0 ==> gl.arrayBufferBinding == if old(gl.arrayBufferBinding) == ref then 0 else old(gl.arrayBufferBinding)
      ensures gl.TargetsKept() && gl.DrawingKept()
    {
      if ref != 0 {
        gl.DeleteBuffer(ref);
      }
    }

    /**
     * bufferData(data, size): binds the owned name to GL_ARRAY_BUFFER and
     * replaces its store with the first `size` bytes of `data`.  An owner
     * holding 0 leaves the binding at 0 and the upload is refused.
     */
    method BufferData(gl: Context, data: seq<real>, size: nat)
      requires gl.Valid() && Valid(gl) && size <= FloatBytes * |data|
      modifies gl`arrayBufferBinding, gl`bufferStore, gl`error
      ensures gl.Valid()
      ensures gl.arrayBufferBinding == ref
      ensures ref != 0 ==>
        gl.error == old(gl.error) &&
        gl.bufferStore == old(gl.bufferStore)[ref := Store(size, data[..size / FloatBytes])]
      ensures ref == 0 ==> gl.bufferStore == old(gl.bufferStore) && gl.error == Raised(old(gl.error), InvalidOperation)
      ensures gl.TargetsKept() && gl.DrawingKept()
    {
      gl.BindArrayBuffer(ref);
      gl.BufferData(data, size);
    }

    /** bind(): the owned name becomes the GL_ARRAY_BUFFER binding. */
    method Bind(gl: Context)
      requires gl.Valid()
      modifies gl`arrayBufferBinding, gl`error
      ensures gl.Valid()
      ensures Valid(gl) ==> gl.arrayBufferBinding == ref && gl.error == old(gl.error)
      ensures !Valid(gl) ==> gl.arrayBufferBinding == old(gl.arrayBufferBinding) && gl.error == Raised(old(gl.error), InvalidOperation)
      ensures gl.TargetsKept() && gl.DrawingKept()
    {
      gl.BindArrayBuffer(ref);
    }

    /** swap(other): exchanges the two owned names. */
    method Swap(other: Vbo)
      modifies this, other
      ensures ref == old(other.ref) && other.ref == old(ref)
    {
      ref, other.ref := other.ref, ref;
    }

    /** Vbo(Vbo&& other): takes over the name of `other`, which is left owning nothing. */
    constructor Move(other: Vbo)
      modifies other
      ensures ref == old(other.ref) && other.ref == 0
    {
      ref := 0;
      new;
      Swap(other);
    }

    /** operator=(Vbo&& other): a swap, except that assigning an owner to itself changes nothing. */
    method MoveAssign(other: Vbo)
      modifies this, other
      ensures other == this ==> ref == old(ref)
      ensures other != this ==> ref == old(other.ref) && other.ref == old(ref)
      ensures Distinct(this, other) == old(Distinct(this, other))
    {
      if this != other {
        Swap(other);
      }
    }
  }

  /** Two different owners never own the same nonzero name. */
  ghost predicate Distinct(a: Vbo, b: Vbo)
    reads a, b
  {
    a != b ==> a.ref == 0 || a.ref != b.ref
  }
}
