/** The space details page (frontend/src/SpaceDetailsPage.js): the edit form's field updates,
    including dotted names that reach into a nested object, and who may edit or rent. */
module SpaceDetailsPage {

  import opened Common
  import opened JsObject
  import opened Seqs
  import SpacesPage

  /** The text of `s` before its first dot (all of `s` when it has none). */
  function UpToDot(s: string): (r: string)
    ensures '.' !in r
    ensures r <= s
    ensures |r| < |s| ==> s[|r|] == '.'
  {
    if s == [] || s[0] == '.' then [] else [s[0]] + UpToDot(s[1..])
  }

  /** `const [objName, objProp] = name.split('.')` for a name holding a dot: the first
      segment and the second one. */
  function SplitPath(name: string): (string, string)
  {
    var objName := UpToDot(name);
    var rest := if |objName| < |name| then name[|objName| + 1..] else [];
    (objName, UpToDot(rest))
  }

  /** `handleChange`: a dotted name sets one property of the nested object named by its first
      segment (spreading what was there), any other name sets the top-level key. */
  function HandleChange(form: Record, name: string, value: string): Record
  {
    if '.' in name then
      var (objName, objProp) := SplitPath(name);
      form[objName := Obj(Spread(Get(form, objName))[objProp := Str(value)])]
    else
      form[name := Str(value)]
  }

  /** `handleCheckboxChange` */
  function HandleCheckboxChange(form: Record, name: string, checked: bool): Record
  {
    form[name := Bool(checked)]
  }

  /** `canEdit`: the signed-in owner of this very space. */
  predicate CanEdit(user: Option<User>, space: Space)
  {
    HasRole(user, Owner) && space.ownerId == Some(user.value.id)
  }

  /** `canRent`: a tenant, on an available space. */
  predicate CanRent(user: Option<User>, space: Space)
  {
    HasRole(user, Tenant) && space.available
  }

  // ---- properties ----

  lemma {:induction false} UpToDotOfDotFree(a: string, t: string)
    requires '.' !in a
    requires t == [] || t[0] == '.'
    ensures UpToDot(a + t) == a
  {
    if a != [] {
      assert (a + t)[1..] == a[1..] + t;
      UpToDotOfDotFree(a[1..], t);
    } else {
      assert a + t == t;
    }
  }

  /** A dotted name uses its first two segments only: `a.b` and `a.b.c…` both address
      property `b` of object `a`. */
  lemma SplitPathFirstTwo(a: string, b: string, rest: string)
    requires '.' !in a && '.' !in b
    requires rest == [] || rest[0] == '.'
    ensures SplitPath(a + "." + b + rest) == (a, b)
  {
    var name := a + "." + b + rest;
    var tail := "." + (b + rest);
    assert name == a + tail;
    UpToDotOfDotFree(a, tail);
    AfterSeparator(a, tail);
    assert tail[1..] == b + rest;
    UpToDotOfDotFree(b, rest);
  }

  lemma AfterSeparator(a: string, tail: string)
    requires tail != []
    ensures (a + tail)[|a| + 1..] == tail[1..]
  {
  }

  /** A dotted change sets property `p` of object `o` and nothing else: the other properties of
      `o` and every other top-level key stay as they were. */
  lemma DottedChangeEffect(form: Record, name: string, value: string)
    requires '.' in name
    ensures var (o, p) := SplitPath(name);
      var r := HandleChange(form, name, value);
      && r.Keys == form.Keys + {o}
      && (forall k :: k in form && k != o ==> r[k] == form[k])
      && r[o].Obj?
      && UpdatedOnly(Spread(Get(form, o)), r[o].fields, p, Str(value))
  {
  }

  /** A name without a dot sets that one top-level key. */
  lemma UndottedChangeEffect(form: Record, name: string, value: string)
    requires '.' !in name
    ensures UpdatedOnly(form, HandleChange(form, name, value), name, Str(value))
  {
  }

  /** The checkbox handler stores the boolean and changes nothing else. */
  lemma CheckboxChangeEffect(form: Record, name: string, checked: bool)
    ensures UpdatedOnly(form, HandleCheckboxChange(form, name, checked), name, Bool(checked))
  {
  }

  /** `canEdit` and `canRent` in terms of the user and the space (a readable unfolding of the
      two predicates), and the one fact beyond them: never both. */
  lemma PermissionsSpec(user: Option<User>, space: Space)
    ensures CanEdit(user, space) <==> user.Some? && user.value.role == Owner && space.ownerId == Some(user.value.id)
    ensures CanRent(user, space) <==> user.Some? && user.value.role == Tenant && space.available
    ensures !(CanEdit(user, space) && CanRent(user, space))
  {
  }

  /** What the spaces list shows an owner by default they may edit, and what it shows a tenant
      by default they may rent. */
  lemma {:induction false} DefaultViewPermissions(spaces: seq<Space>, user: Option<User>)
    ensures HasRole(user, Owner) ==> forall s :: s in SpacesPage.DefaultView(spaces, user) ==> CanEdit(user, s)
    ensures HasRole(user, Tenant) ==> forall s :: s in SpacesPage.DefaultView(spaces, user) ==> CanRent(user, s)
  {
    SpacesPage.DefaultViewByRole(spaces, user);
  }
}
