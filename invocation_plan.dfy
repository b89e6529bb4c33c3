/**
 * InvocationPlan: for one call site, given the shadow map, the class whose
 * method was invoked, the shadow class bound to the instance, the method name,
 * whether the call is static and its parameter types, decide whether a shadow
 * method applies and which one; otherwise whether the original method runs.
 *
 * The rule: look the method up in the bound shadow class and its
 * superclasses; accept what is found only if its declaring class is a shadow
 * class (carries @Implements), it is static exactly when the call is, and its
 * class implements the invoked class itself (the same generation), except that
 * an instance call on a class registered with callThroughByDefault off takes a
 * shadow method of any generation. With no registration for the invoked class
 * there is no shadow method and the original runs.
 */
module InvocationPlans {
  import opened Wrappers
  import opened Hierarchy
  import opened ShadowMaps

  datatype InvocationPlan = InvocationPlan(shadowMethod: Option<MethodRef>, callThrough: bool)

  /** hasShadowImplementation(): the plan holds a shadow method, the one getMethod() returns. */
  predicate HasShadowImplementation(p: InvocationPlan)
  {
    p.shadowMethod.Some?
  }

  /** shouldDelegateToRealMethodWhenMethodShadowIsMissing(): the original runs when no shadow method applies. */
  predicate ShouldDelegateToRealMethodWhenMethodShadowIsMissing(p: InvocationPlan)
  {
    p.callThrough
  }

  /** The declaring class implements exactly the invoked class. */
  predicate SameGeneration(h: Classes, declaringClass: ClassId, clazz: ClassId) {
    declaringClass in h && h[declaringClass].implementsTarget == Some(clazz)
  }

  /** A method found by the lookup may stand in for `clazz`'s method under registration `config`. */
  predicate Acceptable(h: Classes, r: MethodRef, clazz: ClassId, isStatic: bool, config: ShadowConfig)
  {
    && IsShadowClass(h, r.declaringClass)
    && r.decl.isStatic == isStatic
    && (SameGeneration(h, r.declaringClass, clazz) || (!isStatic && !config.callThroughByDefault))
  }

  /** `new InvocationPlan(shadowMap, clazz, shadowClass, methodName, isStatic, paramTypes...)`. */
  function NewInvocationPlan(h: Classes, shadowMap: ShadowMap, clazz: ClassId, shadowClass: ClassId,
                             methodName: string, isStatic: bool, paramTypes: seq<TypeId>): (p: InvocationPlan)
    ensures clazz !in shadowMap ==> !HasShadowImplementation(p) && ShouldDelegateToRealMethodWhenMethodShadowIsMissing(p)
    ensures clazz in shadowMap ==>
              (ShouldDelegateToRealMethodWhenMethodShadowIsMissing(p) <==> shadowMap[clazz].callThroughByDefault)
    ensures HasShadowImplementation(p) ==>
              var r := p.shadowMethod.value;
              && clazz in shadowMap
              && IsShadowClass(h, r.declaringClass)
              && r.declaringClass in Chain(h, shadowClass)
              && r.decl in h[r.declaringClass].declared
              && r.decl.name == methodName && r.decl.paramTypes == paramTypes && r.decl.isStatic == isStatic
              && (shadowMap[clazz].callThroughByDefault ==> SameGeneration(h, r.declaringClass, clazz))
              && (isStatic ==> SameGeneration(h, r.declaringClass, clazz))
  {
    match ConfigFor(shadowMap, clazz)
    case None => InvocationPlan(None, true)
    case Some(config) =>
      var found := FindMethod(h, shadowClass, methodName, paramTypes);
      if found.Some? && Acceptable(h, found.value, clazz, isStatic, config) then
        FindMethodDeclares(h, shadowClass, methodName, paramTypes);
        InvocationPlan(found, config.callThroughByDefault)
      else
        InvocationPlan(None, config.callThroughByDefault)
  }

  /**
   * The plan in terms of the superclass chain of the bound shadow class: it
   * has a shadow implementation exactly when the invoked class is registered
   * and the nearest class of the chain that declares the method is an
   * acceptable shadow for it; that declaration is then the plan's method.
   */
  lemma ResolutionIsNearestAcceptable(h: Classes, shadowMap: ShadowMap, clazz: ClassId, shadowClass: ClassId,
                                      methodName: string, isStatic: bool, paramTypes: seq<TypeId>)
    ensures var p := NewInvocationPlan(h, shadowMap, clazz, shadowClass, methodName, isStatic, paramTypes);
            var chain := Chain(h, shadowClass);
            HasShadowImplementation(p) <==>
              clazz in shadowMap &&
              exists i :: NearestDeclaring(h, chain, i, methodName, paramTypes)
                       && Acceptable(h, DeclaredAt(h, chain, i, methodName, paramTypes), clazz, isStatic, shadowMap[clazz])
                       && p.shadowMethod == Some(DeclaredAt(h, chain, i, methodName, paramTypes))
  {
    var chain := Chain(h, shadowClass);
    var found := FindMethod(h, shadowClass, methodName, paramTypes);
    if found.Some? {
      FindMethodIsNearest(h, shadowClass, methodName, paramTypes);
      var i :| NearestDeclaring(h, chain, i, methodName, paramTypes)
               && found.value == DeclaredAt(h, chain, i, methodName, paramTypes);
      NearestIsUnique(h, chain, i, methodName, paramTypes);
    } else {
      FindMethodNoneIffUndeclared(h, shadowClass, methodName, paramTypes);
    }
  }

  /** At most one position of a chain is the nearest one declaring a method. */
  lemma NearestIsUnique(h: Classes, chain: seq<ClassId>, i: int, name: string, paramTypes: seq<TypeId>)
    requires NearestDeclaring(h, chain, i, name, paramTypes)
    ensures forall j :: NearestDeclaring(h, chain, j, name, paramTypes) ==> j == i
  {
  }

  /**
   * Nothing of the root class is ever a shadow method: if the nearest
   * declaration of the method in the shadow chain is on a class without
   * @Implements (java.lang.Object for equals, hashCode and toString), the
   * plan has no shadow implementation, whatever the call-through policy.
   */
  lemma NonShadowDeclarationNeverUsed(h: Classes, shadowMap: ShadowMap, clazz: ClassId, shadowClass: ClassId,
                                      methodName: string, isStatic: bool, paramTypes: seq<TypeId>, i: int)
    requires NearestDeclaring(h, Chain(h, shadowClass), i, methodName, paramTypes)
    requires !IsShadowClass(h, Chain(h, shadowClass)[i])
    ensures !HasShadowImplementation(NewInvocationPlan(h, shadowMap, clazz, shadowClass, methodName, isStatic, paramTypes))
  {
    ResolutionIsNearestAcceptable(h, shadowMap, clazz, shadowClass, methodName, isStatic, paramTypes);
    NearestIsUnique(h, Chain(h, shadowClass), i, methodName, paramTypes);
  }

  /**
   * With call-through on, a shadow method of another generation is never
   * borrowed: if the nearest declaration implements some class other than the
   * invoked one, the plan has no shadow implementation.
   */
  lemma OtherGenerationNotBorrowedWithCallThrough(h: Classes, shadowMap: ShadowMap, clazz: ClassId, shadowClass: ClassId,
                                                  methodName: string, isStatic: bool, paramTypes: seq<TypeId>, i: int)
    requires clazz in shadowMap && shadowMap[clazz].callThroughByDefault
    requires NearestDeclaring(h, Chain(h, shadowClass), i, methodName, paramTypes)
    requires !SameGeneration(h, Chain(h, shadowClass)[i], clazz)
    ensures !HasShadowImplementation(NewInvocationPlan(h, shadowMap, clazz, shadowClass, methodName, isStatic, paramTypes))
    ensures ShouldDelegateToRealMethodWhenMethodShadowIsMissing(
              NewInvocationPlan(h, shadowMap, clazz, shadowClass, methodName, isStatic, paramTypes))
  {
    ResolutionIsNearestAcceptable(h, shadowMap, clazz, shadowClass, methodName, isStatic, paramTypes);
    NearestIsUnique(h, Chain(h, shadowClass), i, methodName, paramTypes);
  }

  /**
   * A shadow method of the invoked class's own generation is used, whatever
   * the policy: if the nearest declaration is on a shadow class implementing
   * the invoked class and matches the call's static-ness, it is the plan's
   * method.
   */
  lemma SameGenerationShadowUsed(h: Classes, shadowMap: ShadowMap, clazz: ClassId, shadowClass: ClassId,
                                 methodName: string, isStatic: bool, paramTypes: seq<TypeId>, i: int)
    requires clazz in shadowMap
    requires NearestDeclaring(h, Chain(h, shadowClass), i, methodName, paramTypes)
    requires SameGeneration(h, Chain(h, shadowClass)[i], clazz)
    requires DeclaredAt(h, Chain(h, shadowClass), i, methodName, paramTypes).decl.isStatic == isStatic
    ensures NewInvocationPlan(h, shadowMap, clazz, shadowClass, methodName, isStatic, paramTypes).shadowMethod
         == Some(DeclaredAt(h, Chain(h, shadowClass), i, methodName, paramTypes))
  {
    var chain := Chain(h, shadowClass);
    FindMethodNoneIffUndeclared(h, shadowClass, methodName, paramTypes);
    assert !NoneDeclares(h, chain, methodName, paramTypes);
    FindMethodIsNearest(h, shadowClass, methodName, paramTypes);
    NearestIsUnique(h, chain, i, methodName, paramTypes);
  }

  /**
   * Static-ness must match: if the nearest declaration is static exactly when
   * the call is not, the plan has no shadow implementation, whatever the policy.
   */
  lemma StaticMismatchNeverUsed(h: Classes, shadowMap: ShadowMap, clazz: ClassId, shadowClass: ClassId,
                                methodName: string, isStatic: bool, paramTypes: seq<TypeId>, i: int)
    requires NearestDeclaring(h, Chain(h, shadowClass), i, methodName, paramTypes)
    requires DeclaredAt(h, Chain(h, shadowClass), i, methodName, paramTypes).decl.isStatic != isStatic
    ensures !HasShadowImplementation(NewInvocationPlan(h, shadowMap, clazz, shadowClass, methodName, isStatic, paramTypes))
  {
    ResolutionIsNearestAcceptable(h, shadowMap, clazz, shadowClass, methodName, isStatic, paramTypes);
    NearestIsUnique(h, Chain(h, shadowClass), i, methodName, paramTypes);
  }

  /**
   * Static methods never borrow across generations: if the nearest
   * declaration of a static call implements some class other than the invoked
   * one, the plan has no shadow implementation, whatever the policy.
   */
  lemma StaticNeverBorrowsOtherGeneration(h: Classes, shadowMap: ShadowMap, clazz: ClassId, shadowClass: ClassId,
                                          methodName: string, paramTypes: seq<TypeId>, i: int)
    requires NearestDeclaring(h, Chain(h, shadowClass), i, methodName, paramTypes)
    requires !SameGeneration(h, Chain(h, shadowClass)[i], clazz)
    ensures !HasShadowImplementation(NewInvocationPlan(h, shadowMap, clazz, shadowClass, methodName, true, paramTypes))
  {
    ResolutionIsNearestAcceptable(h, shadowMap, clazz, shadowClass, methodName, true, paramTypes);
    NearestIsUnique(h, Chain(h, shadowClass), i, methodName, paramTypes);
  }

  /**
   * With call-through off, the nearest declaration of an instance method is
   * used whichever target its shadow class implements, provided it is a shadow
   * class and the method is an instance method; a static one is used when its
   * class is of the invoked class's generation.
   */
  lemma CallThroughOffUsesAnyShadowGeneration(h: Classes, shadowMap: ShadowMap, clazz: ClassId, shadowClass: ClassId,
                                              methodName: string, isStatic: bool, paramTypes: seq<TypeId>, i: int)
    requires clazz in shadowMap && !shadowMap[clazz].callThroughByDefault
    requires NearestDeclaring(h, Chain(h, shadowClass), i, methodName, paramTypes)
    requires IsShadowClass(h, Chain(h, shadowClass)[i])
    requires DeclaredAt(h, Chain(h, shadowClass), i, methodName, paramTypes).decl.isStatic == isStatic
    requires !isStatic || SameGeneration(h, Chain(h, shadowClass)[i], clazz)
    ensures NewInvocationPlan(h, shadowMap, clazz, shadowClass, methodName, isStatic, paramTypes).shadowMethod
         == Some(DeclaredAt(h, Chain(h, shadowClass), i, methodName, paramTypes))
  {
    var chain := Chain(h, shadowClass);
    FindMethodNoneIffUndeclared(h, shadowClass, methodName, paramTypes);
    assert !NoneDeclares(h, chain, methodName, paramTypes);
    FindMethodIsNearest(h, shadowClass, methodName, paramTypes);
    NearestIsUnique(h, chain, i, methodName, paramTypes);
  }
}
