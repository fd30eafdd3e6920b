/** The environment chain of golox/internal/interpreter/environment.go.

    Every `Environment` ever created is a frame of an arena, addressed by its index; the
    `enclosing` pointer is the index of the parent frame. A Go copy of an `Environment`
    shares its `values` map, so copies are the same index here, and `define`/`assign`
    writing a map in place is replacing one frame of the arena. */
module Environment {
  import opened Wrappers
  import Tokens
  import opened LoxValues

  type Frames = seq<Frame>

  /** Every enclosing link points to an older frame, so every chain ends. */
  predicate WellFormed(frames: Frames)
  {
    forall i :: 0 <= i < |frames| && frames[i].enclosing.Some? ==> frames[i].enclosing.value < i
  }

  /** `NewGlobalEnvironment`: one frame, no bindings, no parent. */
  function NewGlobal(): (frames: Frames)
    ensures |frames| == 1 && frames[0].values == map[] && frames[0].enclosing == None
    ensures WellFormed(frames)
  {
    [Frame(map[], None)]
  }

  /** `NewEnvironment(enclosing)`: a fresh frame with no bindings whose parent is
      `enclosing`, appended to the arena; the result is the arena and the new index. */
  function NewEnvironment(frames: Frames, enclosing: nat): (r: (Frames, nat))
    ensures r.1 == |frames| && |r.0| == |frames| + 1 && r.0[..|frames|] == frames
    ensures r.0[r.1] == Frame(map[], Some(enclosing))
  {
    (frames + [Frame(map[], Some(enclosing))], |frames|)
  }

  /** `define`: binds `name` in frame `id`'s own map, inserting or overwriting. */
  function Define(frames: Frames, id: nat, name: string, v: Value): Frames
  {
    if id < |frames| then frames[id := frames[id].(values := frames[id].values[name := v])]
    else frames
  }

  /** `get`: the binding of the nearest frame up the chain that has the name, else
      "Undefined variable". A link to a frame that is not older stops the walk. */
  function Get(frames: Frames, id: nat, name: Token): Outcome<Value>
    decreases id
  {
    if id >= |frames| then Halted(BadReference)
    else if name.lexeme in frames[id].values then Done(frames[id].values[name.lexeme])
    else match frames[id].enclosing
      case None => Failed(UndefinedVariable(name))
      case Some(p) => if p < id then Get(frames, p, name) else Halted(BadReference)
  }

  /** `assign`: overwrites the binding of the nearest frame that has the name; never
      creates one, and fails with "Undefined variable" when no frame has it. */
  function Assign(frames: Frames, id: nat, name: Token, v: Value): Outcome<Frames>
    decreases id
  {
    if id >= |frames| then Halted(BadReference)
    else if name.lexeme in frames[id].values then Done(Define(frames, id, name.lexeme, v))
    else match frames[id].enclosing
      case None => Failed(UndefinedVariable(name))
      case Some(p) => if p < id then Assign(frames, p, name, v) else Halted(BadReference)
  }

  /** The frame `distance` enclosing links out from `id`. Walking past the global frame is
      a nil dereference. */
  function Ancestor(frames: Frames, id: nat, distance: int): Outcome<nat>
    decreases distance
  {
    if distance <= 0 then Done(id)
    else if id >= |frames| then Halted(BadReference)
    else match frames[id].enclosing
      case None => Halted(NoEnclosing)
      case Some(p) => Ancestor(frames, p, distance - 1)
  }

  /** `getAt`: walks `distance` enclosing links, then reads that frame's own map; a name it
      does not hold reads as nil, as a Go map read does. */
  function GetAt(frames: Frames, id: nat, distance: int, name: string): Outcome<Value>
  {
    match Ancestor(frames, id, distance)
    case Done(a) =>
      if a >= |frames| then Halted(BadReference)
      else if name in frames[a].values then Done(frames[a].values[name]) else Done(Nil)
    case Failed(e) => Failed(e)
    case Halted(h) => Halted(h)
  }

  /** `assignAt`: walks `distance` enclosing links, then writes that frame's own map. */
  function AssignAt(frames: Frames, id: nat, distance: int, name: string, v: Value): Outcome<Frames>
  {
    match Ancestor(frames, id, distance)
    case Done(a) => if a >= |frames| then Halted(BadReference) else Done(Define(frames, a, name, v))
    case Failed(e) => Failed(e)
    case Halted(h) => Halted(h)
  }

  // ---------------------------------------------------------------------------------
  // Properties

  /** `name` is bound in the frame `distance` links out from `id`. */
  predicate BoundAt(frames: Frames, id: nat, distance: nat, name: string)
  {
    var a := Ancestor(frames, id, distance);
    a.Done? && a.value < |frames| && name in frames[a.value].values
  }

  /** `distance` is the nearest frame of the chain binding `name`. */
  predicate NearestAt(frames: Frames, id: nat, distance: nat, name: string)
  {
    BoundAt(frames, id, distance, name) && forall d: nat :: d < distance ==> !BoundAt(frames, id, d, name)
  }

  /** A new frame keeps the arena well formed, and every older frame is as it was. */
  lemma NewEnvironmentKeepsWellFormed(frames: Frames, enclosing: nat)
    requires WellFormed(frames) && enclosing < |frames|
    ensures WellFormed(NewEnvironment(frames, enclosing).0)
  {
  }

  /** `define` changes only the named binding of its own frame: every other frame, every
      other name and every enclosing link are untouched. */
  lemma DefineOnlyOwn(frames: Frames, id: nat, name: string, v: Value)
    requires id < |frames|
    ensures var f := Define(frames, id, name, v);
      |f| == |frames| && f[id].values[name] == v && f[id].enclosing == frames[id].enclosing
      && (forall k :: k in frames[id].values && k != name ==> k in f[id].values && f[id].values[k] == frames[id].values[k])
      && f[id].values.Keys == frames[id].values.Keys + {name}
      && (forall j :: 0 <= j < |frames| && j != id ==> f[j] == frames[j])
    ensures WellFormed(frames) ==> WellFormed(Define(frames, id, name, v))
  {
  }

  /** Walking out one link more is walking from the parent. */
  lemma AncestorStep(frames: Frames, id: nat, p: nat, distance: nat)
    requires id < |frames| && frames[id].enclosing == Some(p)
    ensures Ancestor(frames, id, distance + 1) == Ancestor(frames, p, distance)
  {
  }

  /** `get` finds the nearest binding: on a well-formed arena it fails exactly when no frame
      of the chain binds the name, and otherwise it reads the nearest frame that does, which
      is what `getAt` with that frame's distance reads. */
  lemma {:induction false} GetFindsNearest(frames: Frames, id: nat, name: Token)
    requires WellFormed(frames) && id < |frames|
    ensures !Get(frames, id, name).Halted?
    ensures Get(frames, id, name).Failed? <==> forall d: nat :: !BoundAt(frames, id, d, name.lexeme)
    ensures Get(frames, id, name).Failed? ==> Get(frames, id, name).error == UndefinedVariable(name)
    ensures Get(frames, id, name).Done? ==>
      exists d: nat :: NearestAt(frames, id, d, name.lexeme) && GetAt(frames, id, d, name.lexeme) == Get(frames, id, name)
    decreases id
  {
    var n := name.lexeme;
    if n in frames[id].values {
      assert NearestAt(frames, id, 0, n);
    } else {
      match frames[id].enclosing
      case None =>
        forall d: nat
          ensures !BoundAt(frames, id, d, n)
        {
        }
      case Some(p) =>
        GetFindsNearest(frames, p, name);
        forall d: nat
          ensures BoundAt(frames, id, d + 1, n) <==> BoundAt(frames, p, d, n)
        {
          AncestorStep(frames, id, p, d);
        }
        if Get(frames, p, name).Failed? {
          forall d: nat
            ensures !BoundAt(frames, id, d, n)
          {
            if d > 0 {
              assert !BoundAt(frames, p, d - 1, n);
            }
          }
        } else {
          var d: nat :| NearestAt(frames, p, d, n) && GetAt(frames, p, d, n) == Get(frames, p, name);
          AncestorStep(frames, id, p, d);
          forall e: nat | e < d + 1
            ensures !BoundAt(frames, id, e, n)
          {
            if e > 0 {
              assert !BoundAt(frames, p, e - 1, n);
            }
          }
          assert NearestAt(frames, id, d + 1, n);
        }
    }
  }

  /** `assign` writes where `get` reads: on a well-formed arena it succeeds exactly when `get`
      does, and then it is `assignAt` at the nearest binding's distance, so it creates no
      binding and changes no other frame. */
  lemma {:induction false} AssignWritesNearest(frames: Frames, id: nat, name: Token, v: Value)
    requires WellFormed(frames) && id < |frames|
    ensures Assign(frames, id, name, v).Done? <==> Get(frames, id, name).Done?
    ensures Assign(frames, id, name, v).Failed? ==> Assign(frames, id, name, v) == Failed(UndefinedVariable(name))
    ensures !Assign(frames, id, name, v).Halted?
    ensures forall d: nat :: NearestAt(frames, id, d, name.lexeme) ==>
      Assign(frames, id, name, v) == AssignAt(frames, id, d, name.lexeme, v)
    decreases id
  {
    var n := name.lexeme;
    if n in frames[id].values {
      forall d: nat | NearestAt(frames, id, d, n)
        ensures Assign(frames, id, name, v) == AssignAt(frames, id, d, n, v)
      {
        assert BoundAt(frames, id, 0, n);
      }
    } else {
      match frames[id].enclosing
      case None =>
        forall d: nat | NearestAt(frames, id, d, n)
          ensures false
        {
        }
      case Some(p) =>
        AssignWritesNearest(frames, p, name, v);
        forall d: nat | NearestAt(frames, id, d, n)
          ensures Assign(frames, id, name, v) == AssignAt(frames, id, d, n, v)
        {
          assert d > 0;
          AncestorStep(frames, id, p, d - 1);
          forall e: nat | e < d - 1
            ensures !BoundAt(frames, p, e, n)
          {
            AncestorStep(frames, id, p, e);
            assert !BoundAt(frames, id, e + 1, n);
          }
          assert NearestAt(frames, p, d - 1, n);
        }
    }
  }

  /** After `assign`, reading the name back gives the assigned value. */
  lemma AssignThenGet(frames: Frames, id: nat, name: Token, v: Value)
    requires WellFormed(frames) && id < |frames| && Get(frames, id, name).Done?
    ensures Assign(frames, id, name, v).Done?
    ensures Get(Assign(frames, id, name, v).value, id, name) == Done(v)
  {
    AssignWritesNearest(frames, id, name, v);
    GetFindsNearest(frames, id, name);
    var d: nat :| NearestAt(frames, id, d, name.lexeme) && GetAt(frames, id, d, name.lexeme) == Get(frames, id, name);
    var f := Assign(frames, id, name, v).value;
    var a := Ancestor(frames, id, d).value;
    DefineOnlyOwn(frames, a, name.lexeme, v);
    AncestorsUnchanged(frames, f, id, d);
    forall k: nat | k < d
      ensures !BoundAt(f, id, k, name.lexeme)
    {
      AncestorsUnchanged(frames, f, id, k);
      assert !BoundAt(frames, id, k, name.lexeme);
    }
    assert NearestAt(f, id, d, name.lexeme);
    GetFindsNearest(f, id, name);
    var e: nat :| NearestAt(f, id, e, name.lexeme) && GetAt(f, id, e, name.lexeme) == Get(f, id, name);
    assert e == d;
  }

  /** Arenas with the same enclosing links walk to the same frames. */
  lemma {:induction false} AncestorsUnchanged(frames: Frames, f: Frames, id: nat, distance: nat)
    requires |f| == |frames|
    requires forall j :: 0 <= j < |frames| ==> f[j].enclosing == frames[j].enclosing
    ensures Ancestor(f, id, distance) == Ancestor(frames, id, distance)
    decreases distance
  {
    if distance > 0 && id < |frames| && frames[id].enclosing.Some? {
      AncestorsUnchanged(frames, f, frames[id].enclosing.value, distance - 1);
    }
  }

  /** `assignAt` then `getAt` at the same distance reads the value back. */
  lemma AssignAtThenGetAt(frames: Frames, id: nat, distance: int, name: string, v: Value)
    requires AssignAt(frames, id, distance, name, v).Done?
    ensures GetAt(AssignAt(frames, id, distance, name, v).value, id, distance, name) == Done(v)
  {
    var a := Ancestor(frames, id, distance).value;
    var f := Define(frames, a, name, v);
    DefineOnlyOwn(frames, a, name, v);
    if distance >= 0 {
      AncestorsUnchanged(frames, f, id, distance);
    }
  }

  /** A walk past the global frame is the nil dereference, and a walk of 0 or fewer links
      stays put. */
  lemma AncestorOfGlobal(frames: Frames, distance: int)
    requires |frames| > 0 && frames[0].enclosing == None
    ensures Ancestor(frames, 0, distance) == if distance <= 0 then Done(0) else Halted(NoEnclosing)
  {
  }
}
