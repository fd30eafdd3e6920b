/** The callable values of golox/internal/interpreter/loxcallable.go and
    golox/internal/interpreter/loxclass.go that need no statement execution: arities, method
    lookup up the superclass chain, `bind`, the text of functions, classes and instances, and
    instance fields. Calling a function or a class runs statements and is part of the
    interpreter. */
module LoxClasses {
  import opened Wrappers
  import Tokens
  import opened Ast
  import opened LoxValues
  import opened Environment

  type Token = Tokens.Token

  // ---------------------------------------------------------------------------------
  // Methods and arities

  /** `findMethod`: the class's own method of that name, else the superclass's, up the
      chain; none when no class of the chain has it. */
  function FindMethod(c: LoxClass, name: string): Option<LoxFunction>
    decreases c
  {
    if name in c.methods then Some(c.methods[name])
    else match c.superclass
      case None => None
      case Some(s) => FindMethod(s, name)
  }

  /** The class followed by its superclasses, nearest first. */
  function Lineage(c: LoxClass): (chain: seq<LoxClass>)
    ensures |chain| >= 1 && chain[0] == c
    decreases c
  {
    match c.superclass
    case None => [c]
    case Some(s) => [c] + Lineage(s)
  }

  /** `Arity` of a function: the number of declared parameters. */
  function FunctionArity(f: LoxFunction): nat
  {
    |f.declaration.params|
  }

  /** `Arity` of a class: the arity of its (possibly inherited) `init`, else 0. */
  function ClassArity(c: LoxClass): nat
  {
    match FindMethod(c, "init")
    case Some(m) => FunctionArity(m)
    case None => 0
  }

  // ---------------------------------------------------------------------------------
  // Text

  /** `LoxFunction.String`: the name between "fn< " and " >". */
  function FunctionString(f: LoxFunction): (s: string)
    ensures |s| == |f.declaration.name.lexeme| + 6
    ensures s[..4] == "fn< " && s[|s| - 2..] == " >" && s[4..|s| - 2] == f.declaration.name.lexeme
  {
    "fn< " + f.declaration.name.lexeme + " >"
  }

  /** `LoxClass.String`: the class's name. */
  function ClassString(c: LoxClass): string
  {
    c.name.lexeme
  }

  /** `LoxInstance.String`: the class's text followed by " instance". */
  function InstanceString(inst: Instance): (s: string)
    ensures |s| == |inst.klass.name.lexeme| + 9
    ensures s[..|inst.klass.name.lexeme|] == ClassString(inst.klass)
    ensures s[|inst.klass.name.lexeme|..] == " instance"
  {
    ClassString(inst.klass) + " instance"
  }

  /** The text of the native `clock`. */
  const NativeString: string := "<native fn>"

  // ---------------------------------------------------------------------------------
  // bind

  /** `bind` as written: defines `this` in the map of the closure the method already has,
      which every copy of the method shares, and returns the method unchanged. */
  function BindAsWritten(frames: Frames, f: LoxFunction, instance: nat): (r: (Frames, LoxFunction))
    ensures r.1 == f && |r.0| == |frames|
    ensures f.closure < |frames| ==> r.0[f.closure].values == frames[f.closure].values["this" := Inst(instance)]
  {
    (Define(frames, f.closure, "this", Inst(instance)), f)
  }

  /** `bind` as intended: a fresh environment binding only `this`, enclosed by the method's
      closure; the bound method closes over it and keeps its declaration and `isInit`.
      Existing environments are untouched. */
  function Bind(frames: Frames, f: LoxFunction, instance: nat): (r: (Frames, LoxFunction))
    ensures |r.0| == |frames| + 1 && r.0[..|frames|] == frames
    ensures r.0[|frames|] == Frame(map["this" := Inst(instance)], Some(f.closure))
    ensures r.1.declaration == f.declaration && r.1.isInit == f.isInit && r.1.closure == |frames|
  {
    var (fs, id) := NewEnvironment(frames, f.closure);
    (Define(fs, id, "this", Inst(instance)), f.(closure := id))
  }

  // ---------------------------------------------------------------------------------
  // Instances

  /** `LoxInstance.get`: an own field first, then a method of the class chain bound to the
      instance, else "Undefined property". Binding may add an environment. */
  function InstanceGet(frames: Frames, instances: seq<Instance>, id: nat, name: Token): (r: (Frames, Outcome<Value>))
  {
    if id >= |instances| then (frames, Halted(BadReference))
    else if name.lexeme in instances[id].fields then (frames, Done(instances[id].fields[name.lexeme]))
    else match FindMethod(instances[id].klass, name.lexeme)
      case Some(m) =>
        var (fs, bound) := Bind(frames, m, id);
        (fs, Done(Fn(bound)))
      case None =>
        (frames, Failed(RuntimeError(name, "Undefined property " + name.lexeme + ".")))
  }

  /** `LoxInstance.set`: writes or overwrites the own field and yields the value. */
  function InstanceSet(instances: seq<Instance>, id: nat, name: Token, v: Value): Outcome<seq<Instance>>
  {
    if id >= |instances| then Halted(BadReference)
    else Done(instances[id := instances[id].(fields := instances[id].fields[name.lexeme := v])])
  }

  // ---------------------------------------------------------------------------------
  // Properties

  /** `findMethod` finds the method of the nearest class of the chain that declares the
      name, and finds nothing exactly when no class of the chain declares it. */
  lemma {:induction false} FindMethodNearest(c: LoxClass, name: string)
    ensures FindMethod(c, name).None? <==> forall k :: 0 <= k < |Lineage(c)| ==> name !in Lineage(c)[k].methods
    ensures FindMethod(c, name).Some? ==>
      exists k :: 0 <= k < |Lineage(c)| && name in Lineage(c)[k].methods
        && FindMethod(c, name).value == Lineage(c)[k].methods[name]
        && forall j :: 0 <= j < k ==> name !in Lineage(c)[j].methods
    decreases c
  {
    var chain := Lineage(c);
    if name in c.methods {
      assert chain[0] == c;
    } else {
      match c.superclass
      case None =>
        assert chain == [c];
      case Some(s) =>
        FindMethodNearest(s, name);
        assert chain == [c] + Lineage(s);
        if FindMethod(s, name).Some? {
          var k :| 0 <= k < |Lineage(s)| && name in Lineage(s)[k].methods
            && FindMethod(s, name).value == Lineage(s)[k].methods[name]
            && forall j :: 0 <= j < k ==> name !in Lineage(s)[j].methods;
          assert chain[k + 1] == Lineage(s)[k];
          forall j | 0 <= j < k + 1 ensures name !in chain[j].methods {
            if j > 0 {
              assert chain[j] == Lineage(s)[j - 1];
            }
          }
        } else {
          forall k | 0 <= k < |chain| ensures name !in chain[k].methods {
            if k > 0 {
              assert chain[k] == Lineage(s)[k - 1];
            }
          }
        }
    }
  }

  /** A class without its own `init` has its superclass's arity, and a chain with no
      `init` at all gives arity 0. */
  lemma ClassArityInherited(c: LoxClass)
    ensures "init" !in c.methods && c.superclass.Some? ==> ClassArity(c) == ClassArity(c.superclass.value)
    ensures "init" in c.methods ==> ClassArity(c) == |c.methods["init"].declaration.params|
    ensures (forall k :: 0 <= k < |Lineage(c)| ==> "init" !in Lineage(c)[k].methods) ==> ClassArity(c) == 0
  {
    FindMethodNearest(c, "init");
  }

  /** Own fields shadow methods; a method of the chain is found bound to the instance (a
      fresh environment whose `this` is the instance); "Undefined property" only when
      neither exists. Reading never changes an existing environment. */
  lemma InstanceGetOrder(frames: Frames, instances: seq<Instance>, id: nat, name: Token)
    requires id < |instances|
    ensures var (fs, r) := InstanceGet(frames, instances, id, name);
      && fs[..|frames|] == frames
      && (name.lexeme in instances[id].fields ==> r == Done(instances[id].fields[name.lexeme]) && fs == frames)
      && (r.Failed? <==>
            name.lexeme !in instances[id].fields
            && forall k :: 0 <= k < |Lineage(instances[id].klass)| ==> name.lexeme !in Lineage(instances[id].klass)[k].methods)
      && (r.Failed? ==> r.error == RuntimeError(name, "Undefined property " + name.lexeme + "."))
      && (name.lexeme !in instances[id].fields && r.Done? ==>
            r.value.Fn? && Some(r.value.f.(closure := FindMethod(instances[id].klass, name.lexeme).value.closure))
              == FindMethod(instances[id].klass, name.lexeme)
            && GetAt(fs, r.value.f.closure, 0, "this") == Done(Inst(id)))
      && !r.Halted?
  {
    FindMethodNearest(instances[id].klass, name.lexeme);
  }

  /** `set` then `get` of the same property yields the value set, and `set` leaves every
      other field and every other instance as it was. */
  lemma SetThenGet(frames: Frames, instances: seq<Instance>, id: nat, name: Token, other: string, v: Value)
    requires id < |instances| && other != name.lexeme
    ensures InstanceSet(instances, id, name, v).Done?
    ensures var after := InstanceSet(instances, id, name, v).value;
      && InstanceGet(frames, after, id, name) == (frames, Done(v))
      && |after| == |instances|
      && (forall j :: 0 <= j < |instances| && j != id ==> after[j] == instances[j])
      && after[id].klass == instances[id].klass
      && (other in after[id].fields <==> other in instances[id].fields)
      && (other in instances[id].fields ==> after[id].fields[other] == instances[id].fields[other])
  {
  }

  /** As written, binding one method to two instances leaves both bound copies seeing the
      second instance as `this`: the closure map is shared. */
  lemma BindAsWrittenAliasesThis(frames: Frames, f: LoxFunction, first: nat, second: nat)
    requires f.closure < |frames| && first != second
    ensures var (fs1, b1) := BindAsWritten(frames, f, first);
      var (fs2, b2) := BindAsWritten(fs1, f, second);
      GetAt(fs2, b1.closure, 0, "this") == Done(Inst(second))
  {
  }

  /** As intended, each bound copy keeps its own `this`, and the method's closure is
      not written. */
  lemma BindKeepsThisApart(frames: Frames, f: LoxFunction, first: nat, second: nat)
    requires f.closure < |frames|
    ensures var (fs1, b1) := Bind(frames, f, first);
      var (fs2, b2) := Bind(fs1, f, second);
      && GetAt(fs2, b1.closure, 0, "this") == Done(Inst(first))
      && GetAt(fs2, b2.closure, 0, "this") == Done(Inst(second))
      && fs2[f.closure] == frames[f.closure]
  {
  }

  /** The environments of a method call in a subclass. The resolver places a method body's
      parameters at depth 0, `this` at depth 1 and `super` at depth 2. `decl` is the
      environment of the class statement (which has no `super` of its own); the methods
      close over a new environment binding `super` to the superclass. */
  function SubclassMethodCall(frames: Frames, decl: nat, superclass: LoxClass, body: Function, instance: nat, intended: bool): (r: (Frames, nat))
    requires decl < |frames|
  {
    var (fs1, superEnv) := NewEnvironment(frames, decl);
    var fs2 := Define(fs1, superEnv, "super", ClassRef(superclass));
    var m := LoxFunction(body, superEnv, false);
    var (fs3, bound) := if intended then Bind(fs2, m, instance) else BindAsWritten(fs2, m, instance);
    NewEnvironment(fs3, bound.closure)
  }

  /** With the intended `bind`, the call's parameter environment reaches `this` one link
      out and `super` two links out, as the resolver computed. */
  lemma SuperAtResolvedDepth(frames: Frames, decl: nat, superclass: LoxClass, body: Function, instance: nat)
    requires decl < |frames|
    ensures var (fs, params) := SubclassMethodCall(frames, decl, superclass, body, instance, true);
      && GetAt(fs, params, 1, "this") == Done(Inst(instance))
      && GetAt(fs, params, 2, "super") == Done(ClassRef(superclass))
  {
    var n := |frames|;
    var (fs, params) := SubclassMethodCall(frames, decl, superclass, body, instance, true);
    assert params == n + 2 && fs[n + 2].enclosing == Some(n + 1) && fs[n + 1].enclosing == Some(n);
    assert Ancestor(fs, params, 2) == Done(n);
  }

  /** With `bind` as written, `this` lands in the `super` environment, one link out, and
      two links out is the class statement's environment, where `super` reads as nil: the
      `*LoxClass` assertion of a `super` expression then fails. */
  lemma SuperMissedAsWritten(frames: Frames, decl: nat, superclass: LoxClass, body: Function, instance: nat)
    requires decl < |frames| && "super" !in frames[decl].values
    ensures var (fs, params) := SubclassMethodCall(frames, decl, superclass, body, instance, false);
      && GetAt(fs, params, 1, "this") == Done(Inst(instance))
      && GetAt(fs, params, 2, "super") == Done(Nil)
  {
    var n := |frames|;
    var (fs, params) := SubclassMethodCall(frames, decl, superclass, body, instance, false);
    assert params == n + 1 && fs[n + 1].enclosing == Some(n) && fs[n].enclosing == Some(decl);
    assert Ancestor(fs, params, 2) == Done(decl);
  }
}
