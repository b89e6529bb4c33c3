/**
 * The fixture of InvocationPlanTest: target classes View and SubView, shadow
 * classes ShadowView, ShadowSubView and MyShadowView, and java.lang.Object as
 * the root of both hierarchies; then one lemma per scenario the test asserts.
 */
module InvocationPlanScenarios {
  import opened Wrappers
  import opened Hierarchy
  import opened ShadowMaps
  import opened InvocationPlans

  const OBJECT: ClassId := "java.lang.Object"
  const STRING: ClassId := "java.lang.String"
  const VIEW: ClassId := "View"
  const SUB_VIEW: ClassId := "SubView"
  const SHADOW_VIEW: ClassId := "ShadowView"
  const SHADOW_SUB_VIEW: ClassId := "ShadowSubView"
  const MY_SHADOW_VIEW: ClassId := "MyShadowView"

  const EQUALS := MethodDecl("equals", [OBJECT], false)
  const HASH_CODE := MethodDecl("hashCode", [], false)
  const TO_STRING := MethodDecl("toString", [], false)
  const SHOW := MethodDecl("show", [], false)
  const SET_TEXT := MethodDecl("setText", [STRING], false)
  const GET_SYSTEM := MethodDecl("getSystem", [], true)

  /** The classes of the fixture, with the methods each declares itself. */
  const Fixture: Classes := map[
    OBJECT := ClassInfo(None, None, [EQUALS, HASH_CODE, TO_STRING]),
    VIEW := ClassInfo(Some(OBJECT), None, [SHOW, SET_TEXT, EQUALS, HASH_CODE, TO_STRING, GET_SYSTEM]),
    SUB_VIEW := ClassInfo(Some(VIEW), None, [SHOW]),
    SHADOW_VIEW := ClassInfo(Some(OBJECT), Some(VIEW), [SHOW, GET_SYSTEM]),
    SHADOW_SUB_VIEW := ClassInfo(Some(SHADOW_VIEW), Some(SUB_VIEW), [GET_SYSTEM]),
    MY_SHADOW_VIEW := ClassInfo(Some(SHADOW_VIEW), Some(VIEW), [])
  ]

  /** The map of setUp, or of a test that builds its own, with the given call-through policy for both. */
  function ViewShadows(callThroughByDefault: bool): ShadowMap {
    Build(AddShadowClass(AddShadowClass(NewEmptyBuilder(), VIEW, SHADOW_VIEW, callThroughByDefault),
                         SUB_VIEW, SHADOW_SUB_VIEW, callThroughByDefault))
  }

  /** What each shadow class of the fixture declares itself, for the methods the test calls. */
  lemma FixtureDeclarations()
    ensures DeclaredMethod(Fixture[OBJECT].declared, "equals", [OBJECT]) == Some(EQUALS)
    ensures DeclaredMethod(Fixture[OBJECT].declared, "hashCode", []) == Some(HASH_CODE)
    ensures DeclaredMethod(Fixture[OBJECT].declared, "toString", []) == Some(TO_STRING)
    ensures DeclaredMethod(Fixture[SHADOW_VIEW].declared, "show", []) == Some(SHOW)
    ensures DeclaredMethod(Fixture[SHADOW_VIEW].declared, "getSystem", []) == Some(GET_SYSTEM)
    ensures DeclaredMethod(Fixture[SHADOW_VIEW].declared, "equals", [OBJECT]) == None
    ensures DeclaredMethod(Fixture[SHADOW_VIEW].declared, "hashCode", []) == None
    ensures DeclaredMethod(Fixture[SHADOW_VIEW].declared, "toString", []) == None
    ensures DeclaredMethod(Fixture[SHADOW_SUB_VIEW].declared, "show", []) == None
    ensures DeclaredMethod(Fixture[MY_SHADOW_VIEW].declared, "getSystem", []) == None
  {
    var o := Fixture[OBJECT].declared;
    DeclaredMethodIsFirst(o, "equals", [OBJECT], 0);
    DeclaredMethodIsFirst(o, "hashCode", [], 1);
    DeclaredMethodIsFirst(o, "toString", [], 2);
    var sv := Fixture[SHADOW_VIEW].declared;
    DeclaredMethodIsFirst(sv, "show", [], 0);
    DeclaredMethodIsFirst(sv, "getSystem", [], 1);
  }

  /** The lookups the test's plans make, each walking the shadow superclass chain. */
  lemma FixtureLookups()
    ensures FindMethod(Fixture, SHADOW_VIEW, "show", []) == Some(MethodRef(SHADOW_VIEW, SHOW))
    ensures FindMethod(Fixture, SHADOW_VIEW, "getSystem", []) == Some(MethodRef(SHADOW_VIEW, GET_SYSTEM))
    ensures FindMethod(Fixture, SHADOW_SUB_VIEW, "show", []) == Some(MethodRef(SHADOW_VIEW, SHOW))
    ensures FindMethod(Fixture, MY_SHADOW_VIEW, "getSystem", []) == Some(MethodRef(SHADOW_VIEW, GET_SYSTEM))
    ensures FindMethod(Fixture, SHADOW_VIEW, "equals", [OBJECT]) == Some(MethodRef(OBJECT, EQUALS))
    ensures FindMethod(Fixture, SHADOW_VIEW, "hashCode", []) == Some(MethodRef(OBJECT, HASH_CODE))
    ensures FindMethod(Fixture, SHADOW_VIEW, "toString", []) == Some(MethodRef(OBJECT, TO_STRING))
  {
    FixtureDeclarations();
    var sub := Fixture - {SHADOW_SUB_VIEW};
    assert sub[SHADOW_VIEW] == Fixture[SHADOW_VIEW];
    assert FindMethod(Fixture, SHADOW_SUB_VIEW, "show", []) == FindMethod(sub, SHADOW_VIEW, "show", []);
    var my := Fixture - {MY_SHADOW_VIEW};
    assert my[SHADOW_VIEW] == Fixture[SHADOW_VIEW];
    assert FindMethod(Fixture, MY_SHADOW_VIEW, "getSystem", []) == FindMethod(my, SHADOW_VIEW, "getSystem", []);
    var root := Fixture - {SHADOW_VIEW};
    assert root[OBJECT] == Fixture[OBJECT];
    assert FindMethod(Fixture, SHADOW_VIEW, "equals", [OBJECT]) == FindMethod(root, OBJECT, "equals", [OBJECT]);
    assert FindMethod(Fixture, SHADOW_VIEW, "hashCode", []) == FindMethod(root, OBJECT, "hashCode", []);
    assert FindMethod(Fixture, SHADOW_VIEW, "toString", []) == FindMethod(root, OBJECT, "toString", []);
  }

  /** shouldOnlyInvokeShadowMethodsOnShadowImplementingTheCorrectClass, first plan. */
  lemma SubViewShowHasNoShadowInOtherGeneration()
    ensures !HasShadowImplementation(NewInvocationPlan(Fixture, ViewShadows(true), SUB_VIEW, SHADOW_SUB_VIEW, "show", false, []))
  {
    FixtureLookups();
  }

  /** shouldOnlyInvokeShadowMethodsOnShadowImplementingTheCorrectClass, second plan. */
  lemma ViewShowResolvesToShadowView()
    ensures NewInvocationPlan(Fixture, ViewShadows(true), VIEW, SHADOW_VIEW, "show", false, []).shadowMethod
         == Some(MethodRef(SHADOW_VIEW, SHOW))
  {
    FixtureLookups();
  }

  /** whenCallThroughIsOffForAClass_shouldInvokeShadowMethodsOnSuperclass. */
  lemma CallThroughOffUsesSuperclassShadow()
    ensures NewInvocationPlan(Fixture, ViewShadows(false), SUB_VIEW, SHADOW_SUB_VIEW, "show", false, []).shadowMethod
         == Some(MethodRef(SHADOW_VIEW, SHOW))
  {
    FixtureLookups();
  }

  /** forStaticMethods_shouldOnlyInvokeShadowMethodsOnShadowClassesForTheSameGeneration, first plan. */
  lemma StaticGetSystemResolvesToShadowView()
    ensures NewInvocationPlan(Fixture, ViewShadows(true), VIEW, SHADOW_VIEW, "getSystem", true, []).shadowMethod
         == Some(MethodRef(SHADOW_VIEW, GET_SYSTEM))
  {
    FixtureLookups();
  }

  /**
   * forStaticMethods_shouldOnlyInvokeShadowMethodsOnShadowClassesForTheSameGeneration,
   * the derived map; deriving it leaves the base map's registration for View as it was.
   */
  lemma DerivedMapStaticGetSystemResolvesToShadowView()
    ensures (var modified := Build(AddShadowClass(NewBuilder(ViewShadows(true)), VIEW, MY_SHADOW_VIEW, false));
             NewInvocationPlan(Fixture, modified, VIEW, MY_SHADOW_VIEW, "getSystem", true, []).shadowMethod
             == Some(MethodRef(SHADOW_VIEW, GET_SYSTEM)))
    ensures ConfigFor(ViewShadows(true), VIEW) == Some(ShadowConfig(SHADOW_VIEW, true))
  {
    FixtureLookups();
  }

  /** shouldNeverConsiderMethodsOnObjectToBeShadowMethods: equals, hashCode and toString with call-through off. */
  lemma ObjectMethodsAreNeverShadowMethods()
    ensures !HasShadowImplementation(NewInvocationPlan(Fixture, ViewShadows(false), VIEW, SHADOW_VIEW, "equals", false, [OBJECT]))
    ensures !HasShadowImplementation(NewInvocationPlan(Fixture, ViewShadows(false), VIEW, SHADOW_VIEW, "hashCode", false, []))
    ensures !HasShadowImplementation(NewInvocationPlan(Fixture, ViewShadows(false), VIEW, SHADOW_VIEW, "toString", false, []))
  {
    FixtureLookups();
  }

  /** shouldDelegateToRealMethodsWhenClassIsUnknown, the two plan assertions. */
  lemma EmptyMapDelegatesToRealMethod()
    ensures var p := NewInvocationPlan(Fixture, EMPTY, VIEW, SHADOW_SUB_VIEW, "setText", false, [STRING]);
            !HasShadowImplementation(p) && ShouldDelegateToRealMethodWhenMethodShadowIsMissing(p)
  {
  }
}
