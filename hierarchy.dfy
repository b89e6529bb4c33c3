/**
 * The class space the resolution works over: for each class its superclass,
 * the target named by its @Implements annotation (none for an ordinary class),
 * and the methods it declares itself. Java's reflective lookup of a public
 * method by name and parameter types (Class.getMethod) is modelled as a walk up
 * the superclass chain that stops at the nearest class declaring a match.
 */
module Hierarchy {
  import opened Wrappers

  /** A class identity: its fully qualified class name. */
  type ClassId = string

  /** A parameter type, identified by its class name. */
  type TypeId = string

  datatype MethodDecl = MethodDecl(name: string, paramTypes: seq<TypeId>, isStatic: bool)

  datatype ClassInfo = ClassInfo(
    superclass: Option<ClassId>,
    implementsTarget: Option<ClassId>,
    declared: seq<MethodDecl>)

  /** The classes the class loader knows, by identity. */
  type Classes = map<ClassId, ClassInfo>

  /** A method together with the class that declares it. */
  datatype MethodRef = MethodRef(declaringClass: ClassId, decl: MethodDecl)

  predicate Matches(d: MethodDecl, name: string, paramTypes: seq<TypeId>) {
    d.name == name && d.paramTypes == paramTypes
  }

  /** A class is a shadow class when it carries an @Implements annotation. */
  predicate IsShadowClass(h: Classes, c: ClassId) {
    c in h && h[c].implementsTarget.Some?
  }

  /** The method among `ds` with this name and these parameter types, if any. */
  function DeclaredMethod(ds: seq<MethodDecl>, name: string, paramTypes: seq<TypeId>): (r: Option<MethodDecl>)
    ensures r.Some? ==> r.value in ds && Matches(r.value, name, paramTypes)
    ensures r.None? ==> forall d :: d in ds ==> !Matches(d, name, paramTypes)
  {
    if ds == [] then None
    else if Matches(ds[0], name, paramTypes) then Some(ds[0])
    else DeclaredMethod(ds[1..], name, paramTypes)
  }

  /** The method found among `ds` is the first that matches. */
  lemma {:induction false} DeclaredMethodIsFirst(ds: seq<MethodDecl>, name: string, paramTypes: seq<TypeId>, i: int)
    requires 0 <= i < |ds| && Matches(ds[i], name, paramTypes)
    requires forall j :: 0 <= j < i ==> !Matches(ds[j], name, paramTypes)
    ensures DeclaredMethod(ds, name, paramTypes) == Some(ds[i])
  {
    if i > 0 {
      DeclaredMethodIsFirst(ds[1..], name, paramTypes, i - 1);
    }
  }

  lemma CardinalityOfRemoval(h: Classes, c: ClassId)
    requires c in h
    ensures |h - {c}| < |h|
  {
    assert (h - {c}).Keys == h.Keys - {c};
    assert h.Keys == (h - {c}).Keys + {c};
  }

  /**
   * The superclass chain of `c`, `c` first. It runs until a class without a
   * superclass, or whose superclass is unknown or already on the chain; a class
   * is never visited twice, so a (malformed) cyclic table still yields a finite
   * chain.
   */
  function Chain(h: Classes, c: ClassId): (r: seq<ClassId>)
    ensures |r| > 0 <==> c in h
    ensures |r| > 0 ==> r[0] == c
    ensures forall i :: 0 <= i < |r| ==> r[i] in h
    ensures forall i :: 0 <= i < |r| - 1 ==> h[r[i]].superclass == Some(r[i + 1])
    ensures forall i, j :: 0 <= i < j < |r| ==> r[i] != r[j]
    ensures |r| > 0 ==> ChainEnds(h, r)
    decreases |h|
  {
    if c !in h then []
    else match h[c].superclass
      case None => [c]
      case Some(p) =>
        CardinalityOfRemoval(h, c);
        var rest := Chain(h - {c}, p);
        assert rest != [] ==> (h - {c})[rest[|rest| - 1]] == h[rest[|rest| - 1]];
        [c] + rest
  }

  /** The last class of a non-empty `chain` has no superclass, or an unknown one, or one already on `chain`. */
  predicate ChainEnds(h: Classes, chain: seq<ClassId>)
    requires |chain| > 0 && chain[|chain| - 1] in h
  {
    var last := chain[|chain| - 1];
    h[last].superclass.None? || h[last].superclass.value !in h || h[last].superclass.value in chain
  }

  /**
   * Class.getMethod restricted to the superclass chain: the method with this
   * name and these parameter types declared by the nearest class of the chain
   * starting at `c`.
   */
  function FindMethod(h: Classes, c: ClassId, name: string, paramTypes: seq<TypeId>): (r: Option<MethodRef>)
    ensures r.Some? ==> r.value.declaringClass in h && r.value.decl in h[r.value.declaringClass].declared
    ensures r.Some? ==> Matches(r.value.decl, name, paramTypes)
    ensures c in h && DeclaredMethod(h[c].declared, name, paramTypes).Some? ==> r.Some? && r.value.declaringClass == c
    decreases |h|
  {
    if c !in h then None
    else match DeclaredMethod(h[c].declared, name, paramTypes)
      case Some(d) => Some(MethodRef(c, d))
      case None =>
        match h[c].superclass
        case None => None
        case Some(p) =>
          CardinalityOfRemoval(h, c);
          FindMethod(h - {c}, p, name, paramTypes)
  }

  /** Class `c` declares a method with this name and these parameter types. */
  predicate Declares(h: Classes, c: ClassId, name: string, paramTypes: seq<TypeId>) {
    c in h && DeclaredMethod(h[c].declared, name, paramTypes).Some?
  }

  /** Position `i` of `chain` is the first that declares a matching method. */
  predicate NearestDeclaring(h: Classes, chain: seq<ClassId>, i: int, name: string, paramTypes: seq<TypeId>) {
    && 0 <= i < |chain|
    && Declares(h, chain[i], name, paramTypes)
    && forall j :: 0 <= j < i ==> !Declares(h, chain[j], name, paramTypes)
  }

  /** No class of `chain` declares a matching method. */
  predicate NoneDeclares(h: Classes, chain: seq<ClassId>, name: string, paramTypes: seq<TypeId>) {
    forall i :: 0 <= i < |chain| ==> !Declares(h, chain[i], name, paramTypes)
  }

  /** The method that position `i` of `chain` declares. */
  function DeclaredAt(h: Classes, chain: seq<ClassId>, i: int, name: string, paramTypes: seq<TypeId>): MethodRef
    requires NearestDeclaring(h, chain, i, name, paramTypes)
  {
    MethodRef(chain[i], DeclaredMethod(h[chain[i]].declared, name, paramTypes).value)
  }

  /** Removing a class other than the ones in `chain` does not change what they declare. */
  lemma DeclaresAfterRemoval(h: Classes, c: ClassId, chain: seq<ClassId>, name: string, paramTypes: seq<TypeId>)
    requires forall i :: 0 <= i < |chain| ==> chain[i] in h - {c}
    ensures forall i :: 0 <= i < |chain| ==>
              Declares(h - {c}, chain[i], name, paramTypes) == Declares(h, chain[i], name, paramTypes)
  {
  }

  /**
   * The reference characterisation of the lookup, first half: it finds nothing
   * exactly when no class of the superclass chain declares a matching method.
   */
  lemma {:induction false} FindMethodNoneIffUndeclared(h: Classes, c: ClassId, name: string, paramTypes: seq<TypeId>)
    ensures FindMethod(h, c, name, paramTypes).None? <==> NoneDeclares(h, Chain(h, c), name, paramTypes)
    decreases |h|
  {
    var chain := Chain(h, c);
    if c !in h {
    } else if Declares(h, c, name, paramTypes) {
      assert chain[0] == c;
    } else {
      match h[c].superclass
      case None =>
        assert chain == [c];
      case Some(p) =>
        var h' := h - {c};
        CardinalityOfRemoval(h, c);
        FindMethodNoneIffUndeclared(h', p, name, paramTypes);
        var rest := Chain(h', p);
        assert chain == [c] + rest;
        DeclaresAfterRemoval(h, c, rest, name, paramTypes);
        assert FindMethod(h, c, name, paramTypes) == FindMethod(h', p, name, paramTypes);
        if NoneDeclares(h', rest, name, paramTypes) {
          forall i | 0 <= i < |chain|
            ensures !Declares(h, chain[i], name, paramTypes)
          {
            if i > 0 {
              assert chain[i] == rest[i - 1];
            }
          }
        } else {
          var k :| 0 <= k < |rest| && Declares(h', rest[k], name, paramTypes);
          assert chain[k + 1] == rest[k];
        }
    }
  }

  /**
   * The reference characterisation of the lookup, second half: what it finds
   * is the method declared by the nearest class of the chain that declares one.
   */
  lemma {:induction false} FindMethodIsNearest(h: Classes, c: ClassId, name: string, paramTypes: seq<TypeId>)
    requires FindMethod(h, c, name, paramTypes).Some?
    ensures exists i :: NearestDeclaring(h, Chain(h, c), i, name, paramTypes)
                     && FindMethod(h, c, name, paramTypes).value == DeclaredAt(h, Chain(h, c), i, name, paramTypes)
    decreases |h|
  {
    var chain := Chain(h, c);
    if Declares(h, c, name, paramTypes) {
      assert chain[0] == c;
      assert NearestDeclaring(h, chain, 0, name, paramTypes);
    } else {
      match h[c].superclass
      case None =>
      case Some(p) =>
        var h' := h - {c};
        CardinalityOfRemoval(h, c);
        assert FindMethod(h, c, name, paramTypes) == FindMethod(h', p, name, paramTypes);
        FindMethodIsNearest(h', p, name, paramTypes);
        var rest := Chain(h', p);
        assert chain == [c] + rest;
        DeclaresAfterRemoval(h, c, rest, name, paramTypes);
        var k :| NearestDeclaring(h', rest, k, name, paramTypes)
                 && FindMethod(h', p, name, paramTypes).value == DeclaredAt(h', rest, k, name, paramTypes);
        assert chain[k + 1] == rest[k];
        forall j | 0 <= j < k + 1
          ensures !Declares(h, chain[j], name, paramTypes)
        {
          if j > 0 {
            assert chain[j] == rest[j - 1];
          }
        }
        assert NearestDeclaring(h, chain, k + 1, name, paramTypes);
    }
  }

  /** The find-method result is declared by its class, with the requested name and parameter types. */
  lemma FindMethodDeclares(h: Classes, c: ClassId, name: string, paramTypes: seq<TypeId>)
    requires FindMethod(h, c, name, paramTypes).Some?
    ensures var r := FindMethod(h, c, name, paramTypes).value;
            r.declaringClass in h && r.decl in h[r.declaringClass].declared && Matches(r.decl, name, paramTypes)
            && r.declaringClass in Chain(h, c)
  {
    FindMethodIsNearest(h, c, name, paramTypes);
  }
}
