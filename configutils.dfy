/**
 * Validation of the environment list read from the configuration file
 * (module/utils/configutils.py).
 *
 * `validate_config` either returns `None` or raises; here it returns `Pass`
 * or `Fail(error)`. The error is the AssertionError of the first failed
 * check, or the KeyError / TypeError that `get_item_by_name` raises when it
 * subscripts an item that is not a dict or has no "name".
 */
module ConfigUtils {
  import opened Json

  /** The Python type a property's value must be an instance of. */
  datatype PropType = StrType | ListType

  /** `valid_properties()`: the keys an item may carry, with the type of each. */
  function ValidProperties(key: string): (t: Option<PropType>)
    ensures t.Some? <==> key == "name" || key == "parent" || key == "packages"
    ensures t == Some(ListType) <==> key == "packages"
  {
    if key == "name" || key == "parent" then Some(StrType)
    else if key == "packages" then Some(ListType)
    else None
  }

  /** `isinstance(v, t)`. */
  predicate IsInstance(v: Json, t: PropType)
  {
    match t
    case StrType => v.JStr?
    case ListType => v.JArr?
  }

  /** What an f-string prints for the type object. */
  function TypeName(t: PropType): string
  {
    match t
    case StrType => "<class 'str'>"
    case ListType => "<class 'list'>"
  }

  const NotAListMessage: string := "The configuration object must be a list"
  const NotADictMessage: string := "The configuration items must be dicts"

  function InvalidKeyMessage(key: string): string
  {
    "Invalid configuration item key: " + key
  }

  /** The two messages below are triple-quoted f-strings: they start with a
      line break and carry the source's indentation (12 and 16 spaces). */
  const Indent12: string := "            "
  const Indent16: string := "                "

  function InvalidTypeMessage(key: string, t: PropType): string
  {
    "\n" + Indent12 + "Invalid configuration item key type. \"" + key + "\" should be "
    + TypeName(t) + "'\n" + Indent12
  }

  function InvalidParentMessage(name: string): string
  {
    "\n" + Indent16 + "Invalid configuration item parent: " + name + "\n" + Indent16
  }

  /** `item["name"]` can be read. */
  predicate Named(item: Json)
  {
    Subscript(item, "name").Ok?
  }

  /** `item["name"] == name`. */
  predicate NameIs(item: Json, name: string)
  {
    Subscript(item, "name") == Ok(JStr(name))
  }

  /** The search reads the item's name and moves past it. */
  predicate PassedOver(item: Json, name: string)
  {
    Named(item) && !NameIs(item, name)
  }

  /** `get_item_by_name(config, name)`: `next` over a generator, so the items
      are subscripted in order and only up to the first match; the first item
      that cannot be subscripted with "name" raises. */
  function GetItemByName(config: seq<Json>, name: string): Result<Option<Json>>
    decreases |config|
  {
    if |config| == 0 then Ok(None)
    else match Subscript(config[0], "name")
      case Err(e) => Err(e)
      case Ok(n) => if n == JStr(name) then Ok(Some(config[0])) else GetItemByName(config[1..], name)
  }

  /** The search returns nothing when it passes every item, the first match
      when there is one it reaches, and otherwise raises the error of the first
      item it cannot subscript. */
  lemma {:induction false} GetItemByNameSpec(config: seq<Json>, name: string)
    ensures GetItemByName(config, name) == Ok(None) <==>
      forall j :: 0 <= j < |config| ==> PassedOver(config[j], name)
    ensures var r := GetItemByName(config, name);
      r.Ok? && r.value.Some? ==>
        exists k :: 0 <= k < |config| && NameIs(config[k], name) && r.value.value == config[k] &&
          forall j :: 0 <= j < k ==> PassedOver(config[j], name)
    ensures var r := GetItemByName(config, name);
      r.Err? ==>
        exists k :: 0 <= k < |config| && Subscript(config[k], "name") == Err(r.error) &&
          forall j :: 0 <= j < k ==> PassedOver(config[j], name)
    decreases |config|
  {
    if |config| > 0 && PassedOver(config[0], name) {
      var rest := config[1..];
      GetItemByNameSpec(rest, name);
      var r := GetItemByName(config, name);
      assert r == GetItemByName(rest, name);
      assert forall j :: 1 <= j < |config| ==> config[j] == rest[j - 1];
      if r.Ok? && r.value.Some? {
        var k :| 0 <= k < |rest| && NameIs(rest[k], name) && r.value.value == rest[k] &&
          forall j :: 0 <= j < k ==> PassedOver(rest[j], name);
        assert NameIs(config[k + 1], name);
      }
      if r.Err? {
        var k :| 0 <= k < |rest| && Subscript(rest[k], "name") == Err(r.error) &&
          forall j :: 0 <= j < k ==> PassedOver(rest[j], name);
        assert Subscript(config[k + 1], "name") == Err(r.error);
      }
    }
  }

  /** The checks on one key and its value, in the order the loop body makes them. */
  function CheckPair(config: seq<Json>, key: string, value: Json): Outcome
  {
    match ValidProperties(key)
    case None => Fail(AssertionError(InvalidKeyMessage(key)))
    case Some(t) =>
      if !IsInstance(value, t) then Fail(AssertionError(InvalidTypeMessage(key, t)))
      else if key != "parent" then Pass
      else match GetItemByName(config, value.s)
        case Err(e) => Fail(e)
        case Ok(None) => Fail(AssertionError(InvalidParentMessage(value.s)))
        case Ok(Some(_)) => Pass
  }

  /** The inner loop: the keys of one item, in dict order, first failure wins. */
  function CheckPairs(config: seq<Json>, pairs: seq<(string, Json)>): Outcome
    decreases |pairs|
  {
    if |pairs| == 0 then Pass
    else match CheckPair(config, pairs[0].0, pairs[0].1)
      case Fail(e) => Fail(e)
      case Pass => CheckPairs(config, pairs[1..])
  }

  function CheckItem(config: seq<Json>, item: Json): Outcome
  {
    match item
    case JObj(pairs) => CheckPairs(config, pairs)
    case _ => Fail(AssertionError(NotADictMessage))
  }

  /** The outer loop: the items in list order, first failure wins. */
  function CheckItems(config: seq<Json>, items: seq<Json>): Outcome
    decreases |items|
  {
    if |items| == 0 then Pass
    else match CheckItem(config, items[0])
      case Fail(e) => Fail(e)
      case Pass => CheckItems(config, items[1..])
  }

  /** `validate_config(config)`. */
  function Validate(config: Json): Outcome
  {
    match config
    case JArr(items) => CheckItems(items, items)
    case _ => Fail(AssertionError(NotAListMessage))
  }

  /** `validate_config` as the source runs it: a loop over the items with a
      loop over each item's keys, leaving at the first failed check. */
  method ValidateConfig(config: Json) returns (r: Outcome)
    ensures r == Validate(config)
  {
    if !config.JArr? {
      return Fail(AssertionError(NotAListMessage));
    }
    var items := config.items;
    var i := 0;
    while i < |items|
      invariant 0 <= i <= |items|
      invariant CheckItems(items, items) == CheckItems(items, items[i..])
    {
      var item := items[i];
      assert items[i..][1..] == items[i + 1..];
      if !item.JObj? {
        return Fail(AssertionError(NotADictMessage));
      }
      var pairs := item.pairs;
      var j := 0;
      while j < |pairs|
        invariant 0 <= j <= |pairs|
        invariant CheckPairs(items, pairs) == CheckPairs(items, pairs[j..])
      {
        var key, value := pairs[j].0, pairs[j].1;
        assert pairs[j..][1..] == pairs[j + 1..];
        var t := ValidProperties(key);
        if t.None? {
          return Fail(AssertionError(InvalidKeyMessage(key)));
        }
        if !IsInstance(value, t.value) {
          return Fail(AssertionError(InvalidTypeMessage(key, t.value)));
        }
        if key == "parent" {
          var found := GetItemByName(items, value.s);
          if found.Err? {
            return Fail(found.error);
          }
          if found.value.None? {
            return Fail(AssertionError(InvalidParentMessage(value.s)));
          }
        }
        j := j + 1;
      }
      i := i + 1;
    }
    return Pass;
  }

  // ---------------------------------------------------------------------
  // What a configuration that passes looks like, stated without the loops.

  /** Some item carries `name`, and every item before it has a readable name,
      so the search reaches it without raising. The item may be the one that
      names it as parent, or come later in the list. */
  ghost predicate ParentResolves(config: seq<Json>, name: string)
  {
    exists k :: 0 <= k < |config| && NameIs(config[k], name) &&
      forall j :: 0 <= j < k ==> Named(config[j])
  }

  ghost predicate ValidPair(config: seq<Json>, key: string, value: Json)
  {
    ValidProperties(key).Some? &&
    IsInstance(value, ValidProperties(key).value) &&
    (key == "parent" ==> ParentResolves(config, value.s))
  }

  ghost predicate ValidItem(config: seq<Json>, item: Json)
  {
    item.JObj? &&
    forall p :: 0 <= p < |item.pairs| ==> ValidPair(config, item.pairs[p].0, item.pairs[p].1)
  }

  /** A list of dicts whose keys are all known, whose values all have the
      right type and whose parents all resolve. No key is required. */
  ghost predicate ValidConfig(config: Json)
  {
    config.JArr? &&
    forall i :: 0 <= i < |config.items| ==> ValidItem(config.items, config.items[i])
  }

  /** The search reaches a matching item that every earlier item lets it pass. */
  lemma {:induction false} GetItemByNameReaches(config: seq<Json>, name: string, k: nat)
    requires k < |config| && NameIs(config[k], name)
    requires forall j :: 0 <= j < k ==> Named(config[j])
    ensures GetItemByName(config, name).Ok? && GetItemByName(config, name).value.Some?
    decreases k
  {
    if k > 0 && !NameIs(config[0], name) {
      assert forall j :: 0 <= j < k - 1 ==> config[1..][j] == config[j + 1];
      GetItemByNameReaches(config[1..], name, k - 1);
    }
  }

  /** The search raises at the first item it cannot subscript, when no earlier item matches. */
  lemma {:induction false} GetItemByNameRaisesAt(config: seq<Json>, name: string, k: nat)
    requires k < |config| && !Named(config[k])
    requires forall j :: 0 <= j < k ==> PassedOver(config[j], name)
    ensures GetItemByName(config, name) == Err(Subscript(config[k], "name").error)
    decreases k
  {
    if k > 0 {
      assert PassedOver(config[0], name);
      assert forall j :: 0 <= j < k - 1 ==> config[1..][j] == config[j + 1];
      GetItemByNameRaisesAt(config[1..], name, k - 1);
    }
  }

  /** The search finds an item exactly when the parent resolves. */
  lemma {:induction false} GetItemByNameFinds(config: seq<Json>, name: string)
    ensures (GetItemByName(config, name).Ok? && GetItemByName(config, name).value.Some?)
      <==> ParentResolves(config, name)
  {
    GetItemByNameSpec(config, name);
    if ParentResolves(config, name) {
      var k :| 0 <= k < |config| && NameIs(config[k], name) &&
        forall j :: 0 <= j < k ==> Named(config[j]);
      GetItemByNameReaches(config, name, k);
    }
  }

  lemma {:induction false} CheckPairPasses(config: seq<Json>, key: string, value: Json)
    ensures CheckPair(config, key, value) == Pass <==> ValidPair(config, key, value)
  {
    if ValidProperties(key).Some? && IsInstance(value, ValidProperties(key).value) && key == "parent" {
      GetItemByNameFinds(config, value.s);
    }
  }

  lemma {:induction false} CheckPairsPass(config: seq<Json>, pairs: seq<(string, Json)>)
    ensures CheckPairs(config, pairs) == Pass <==>
      forall p :: 0 <= p < |pairs| ==> ValidPair(config, pairs[p].0, pairs[p].1)
    decreases |pairs|
  {
    if |pairs| > 0 {
      CheckPairPasses(config, pairs[0].0, pairs[0].1);
      CheckPairsPass(config, pairs[1..]);
      assert forall p :: 1 <= p < |pairs| ==> pairs[p] == pairs[1..][p - 1];
    }
  }

  lemma {:induction false} CheckItemsPass(config: seq<Json>, items: seq<Json>)
    ensures CheckItems(config, items) == Pass <==>
      forall i :: 0 <= i < |items| ==> ValidItem(config, items[i])
    decreases |items|
  {
    if |items| > 0 {
      if items[0].JObj? { CheckPairsPass(config, items[0].pairs); }
      CheckItemsPass(config, items[1..]);
      assert forall i :: 1 <= i < |items| ==> items[i] == items[1..][i - 1];
    }
  }

  /** `validate_config` returns normally exactly for the valid configurations. */
  lemma {:induction false} ValidateAcceptsExactly(config: Json)
    ensures Validate(config) == Pass <==> ValidConfig(config)
  {
    if config.JArr? {
      CheckItemsPass(config.items, config.items);
    }
  }

  /** When every item has a readable name, a parent is accepted exactly when
      some item of the whole list carries that name. */
  lemma {:induction false} ParentAcceptedIffNamed(config: seq<Json>, name: string)
    requires forall j :: 0 <= j < |config| ==> Named(config[j])
    ensures ParentResolves(config, name) <==> exists k :: 0 <= k < |config| && NameIs(config[k], name)
  {
  }

  // ---------------------------------------------------------------------
  // The first failure wins.

  /** Once every item before `i` is valid, the result is that of item `i`
      whenever item `i` fails. */
  lemma {:induction false} FirstBadItemDecides(config: seq<Json>, items: seq<Json>, i: nat)
    requires i < |items|
    requires forall j :: 0 <= j < i ==> ValidItem(config, items[j])
    requires CheckItem(config, items[i]).Fail?
    ensures CheckItems(config, items) == CheckItem(config, items[i])
    decreases i
  {
    if items[0].JObj? { CheckPairsPass(config, items[0].pairs); }
    if i > 0 {
      assert ValidItem(config, items[0]);
      assert forall j :: 0 <= j < i - 1 ==> items[1..][j] == items[j + 1];
      FirstBadItemDecides(config, items[1..], i - 1);
    }
  }

  /** Inside one item, once every key before `p` is valid, the item fails with
      the failure of key `p`. */
  lemma {:induction false} FirstBadPairDecides(config: seq<Json>, pairs: seq<(string, Json)>, p: nat)
    requires p < |pairs|
    requires forall q :: 0 <= q < p ==> ValidPair(config, pairs[q].0, pairs[q].1)
    requires CheckPair(config, pairs[p].0, pairs[p].1).Fail?
    ensures CheckPairs(config, pairs) == CheckPair(config, pairs[p].0, pairs[p].1)
    decreases p
  {
    CheckPairPasses(config, pairs[0].0, pairs[0].1);
    if p > 0 {
      assert forall q :: 0 <= q < p - 1 ==> pairs[1..][q] == pairs[q + 1];
      FirstBadPairDecides(config, pairs[1..], p - 1);
    }
  }

  /** The whole configuration fails with the failure of key `p` of item `i`
      when everything before it, in list order and then dict order, is valid. */
  lemma {:induction false} FirstBadKeyDecides(items: seq<Json>, i: nat, p: nat)
    requires i < |items| && items[i].JObj? && p < |items[i].pairs|
    requires forall j :: 0 <= j < i ==> ValidItem(items, items[j])
    requires forall q :: 0 <= q < p ==> ValidPair(items, items[i].pairs[q].0, items[i].pairs[q].1)
    requires CheckPair(items, items[i].pairs[p].0, items[i].pairs[p].1).Fail?
    ensures Validate(JArr(items)) == CheckPair(items, items[i].pairs[p].0, items[i].pairs[p].1)
  {
    FirstBadPairDecides(items, items[i].pairs, p);
    FirstBadItemDecides(items, items, i);
  }

  /** A configuration that is not a list is rejected before anything else. */
  lemma {:induction false} NotAListRejected(config: Json)
    requires !config.JArr?
    ensures Validate(config) == Fail(AssertionError(NotAListMessage))
  {
  }

  /** The first item that is not a dict is rejected. */
  lemma {:induction false} ItemNotDictRejected(items: seq<Json>, i: nat)
    requires i < |items| && !items[i].JObj?
    requires forall j :: 0 <= j < i ==> ValidItem(items, items[j])
    ensures Validate(JArr(items)) == Fail(AssertionError(NotADictMessage))
  {
    FirstBadItemDecides(items, items, i);
  }

  /** The first key outside name/parent/packages is rejected, by name. */
  lemma {:induction false} InvalidKeyRejected(items: seq<Json>, i: nat, p: nat)
    requires i < |items| && items[i].JObj? && p < |items[i].pairs|
    requires forall j :: 0 <= j < i ==> ValidItem(items, items[j])
    requires forall q :: 0 <= q < p ==> ValidPair(items, items[i].pairs[q].0, items[i].pairs[q].1)
    requires ValidProperties(items[i].pairs[p].0).None?
    ensures Validate(JArr(items)) == Fail(AssertionError(InvalidKeyMessage(items[i].pairs[p].0)))
  {
    FirstBadKeyDecides(items, i, p);
  }

  /** The first value of the wrong type is rejected, naming the key and the
      expected type; for "parent" this comes before the search for the parent.
      The elements of a "packages" list are never looked at. */
  lemma {:induction false} WrongTypeRejected(items: seq<Json>, i: nat, p: nat)
    requires i < |items| && items[i].JObj? && p < |items[i].pairs|
    requires forall j :: 0 <= j < i ==> ValidItem(items, items[j])
    requires forall q :: 0 <= q < p ==> ValidPair(items, items[i].pairs[q].0, items[i].pairs[q].1)
    requires var (key, value) := items[i].pairs[p];
      ValidProperties(key).Some? && !IsInstance(value, ValidProperties(key).value)
    ensures var (key, value) := items[i].pairs[p];
      Validate(JArr(items)) == Fail(AssertionError(InvalidTypeMessage(key, ValidProperties(key).value)))
  {
    FirstBadKeyDecides(items, i, p);
  }

  /** A string parent that no item of a fully named list carries is rejected. */
  lemma {:induction false} UnknownParentRejected(items: seq<Json>, i: nat, p: nat, parent: string)
    requires i < |items| && items[i].JObj? && p < |items[i].pairs|
    requires forall j :: 0 <= j < i ==> ValidItem(items, items[j])
    requires forall q :: 0 <= q < p ==> ValidPair(items, items[i].pairs[q].0, items[i].pairs[q].1)
    requires items[i].pairs[p] == ("parent", JStr(parent))
    requires forall j :: 0 <= j < |items| ==> PassedOver(items[j], parent)
    ensures Validate(JArr(items)) == Fail(AssertionError(InvalidParentMessage(parent)))
  {
    GetItemByNameSpec(items, parent);
    FirstBadKeyDecides(items, i, p);
  }

  /** While searching for a parent, an item without "name" ahead of every match
      makes the search raise KeyError (or TypeError for a non-dict), and that
      error, not an assertion, is what the validation raises. */
  lemma {:induction false} ParentSearchRaises(items: seq<Json>, i: nat, p: nat, parent: string, k: nat)
    requires i < |items| && items[i].JObj? && p < |items[i].pairs|
    requires forall j :: 0 <= j < i ==> ValidItem(items, items[j])
    requires forall q :: 0 <= q < p ==> ValidPair(items, items[i].pairs[q].0, items[i].pairs[q].1)
    requires items[i].pairs[p] == ("parent", JStr(parent))
    requires k < |items| && !Named(items[k])
    requires forall j :: 0 <= j < k ==> PassedOver(items[j], parent)
    ensures Validate(JArr(items)) == Fail(if items[k].JObj? then KeyError("name") else TypeError)
  {
    GetItemByNameRaisesAt(items, parent, k);
    FirstBadKeyDecides(items, i, p);
  }

  // ---------------------------------------------------------------------
  // Concrete configurations.

  /** No key is required: these all pass. */
  lemma {:induction false} NoKeyRequired()
    ensures Validate(JArr([])) == Pass
    ensures Validate(JArr([JObj([])])) == Pass
    ensures Validate(JArr([JObj([("packages", JArr([]))])])) == Pass
  {
  }

  /** A self-parent and a two-item cycle both pass: only existence is checked. */
  lemma {:induction false} CyclesAccepted()
    ensures Validate(JArr([JObj([("name", JStr("a")), ("parent", JStr("a"))])])) == Pass
    ensures Validate(JArr([
      JObj([("name", JStr("a")), ("parent", JStr("b"))]),
      JObj([("name", JStr("b")), ("parent", JStr("a"))])])) == Pass
  {
  }

  /** A name-less item ahead of the parent makes the search raise KeyError. */
  lemma {:induction false} NamelessItemRaises()
    ensures Validate(JArr([
      JObj([("packages", JArr([]))]),
      JObj([("name", JStr("b")), ("parent", JStr("b"))])])) == Fail(KeyError("name"))
  {
  }

  /** An item with a name, an optional parent and a list of package specifiers. */
  function Env(name: string, parent: Option<string>, packages: seq<Json>): Json
  {
    match parent
    case None => JObj([("name", JStr(name)), ("packages", JArr(packages))])
    case Some(p) => JObj([("name", JStr(name)), ("parent", JStr(p)), ("packages", JArr(packages))])
  }

  /** An item built by `Env` is found under its name. */
  lemma {:induction false} EnvNameIs(name: string, parent: Option<string>, packages: seq<Json>)
    ensures NameIs(Env(name, parent, packages), name)
  {
    assert Env(name, parent, packages).pairs[0] == ("name", JStr(name));
  }

  /** A list passes when each of its items passes on its own. */
  lemma {:induction false} CheckItemsAllPass(config: seq<Json>, items: seq<Json>)
    requires forall i :: 0 <= i < |items| ==> CheckItem(config, items[i]) == Pass
    ensures CheckItems(config, items) == Pass
    decreases |items|
  {
    if |items| > 0 {
      assert forall i :: 0 <= i < |items| - 1 ==> items[1..][i] == items[i + 1];
      CheckItemsAllPass(config, items[1..]);
    }
  }

  /** An item built by `Env` passes when its parent, if any, is found. */
  lemma {:induction false} EnvPasses(config: seq<Json>, name: string, parent: Option<string>, packages: seq<Json>)
    requires parent.Some? ==> GetItemByName(config, parent.value).Ok? && GetItemByName(config, parent.value).value.Some?
    ensures CheckItem(config, Env(name, parent, packages)) == Pass
  {
    var pairs := Env(name, parent, packages).pairs;
    var last := [("packages", JArr(packages))];
    assert CheckPairs(config, last) == Pass by {
      assert last[1..] == [];
    }
    assert CheckPair(config, "name", JStr(name)) == Pass;
    match parent
    case None =>
      assert pairs == [("name", JStr(name))] + last;
      assert pairs[1..] == last;
    case Some(p) =>
      var tail := [("parent", JStr(p))] + last;
      assert CheckPair(config, "parent", JStr(p)) == Pass;
      assert tail[1..] == last;
      assert CheckPairs(config, tail) == Pass;
      assert pairs == [("name", JStr(name))] + tail;
      assert pairs[1..] == tail;
  }

  /** The valid configuration of the unit tests passes (the code returns None),
      whatever the package lists hold: their elements are never looked at. */
  lemma {:induction false} UnitTestValidConfig(p0: seq<Json>, p1: seq<Json>, p2: seq<Json>, p3: seq<Json>, p4: seq<Json>)
    ensures Validate(JArr([
      Env("base", None, p0),
      Env("ansible_2_6", Some("base"), p1),
      Env("ansible_2_7", Some("base"), p2),
      Env("ansible_2_9", Some("base"), p3),
      Env("ansible_2_9_networking", Some("ansible_2_9"), p4)])) == Pass
  {
    var cfg := [
      Env("base", None, p0),
      Env("ansible_2_6", Some("base"), p1),
      Env("ansible_2_7", Some("base"), p2),
      Env("ansible_2_9", Some("base"), p3),
      Env("ansible_2_9_networking", Some("ansible_2_9"), p4)];
    EnvNameIs("base", None, p0);
    EnvNameIs("ansible_2_6", Some("base"), p1);
    EnvNameIs("ansible_2_7", Some("base"), p2);
    EnvNameIs("ansible_2_9", Some("base"), p3);
    GetItemByNameReaches(cfg, "base", 0);
    GetItemByNameReaches(cfg, "ansible_2_9", 3);
    EnvPasses(cfg, "base", None, p0);
    EnvPasses(cfg, "ansible_2_6", Some("base"), p1);
    EnvPasses(cfg, "ansible_2_7", Some("base"), p2);
    EnvPasses(cfg, "ansible_2_9", Some("base"), p3);
    EnvPasses(cfg, "ansible_2_9_networking", Some("ansible_2_9"), p4);
    CheckItemsAllPass(cfg, cfg);
  }

  /** The configuration of the unit tests whose second item names an unknown
      parent: validation stops there and reports the parent's value, whatever
      the package lists hold. */
  lemma {:induction false} UnitTestUnknownParent(p0: seq<Json>, p1: seq<Json>, p2: seq<Json>, p3: seq<Json>, p4: seq<Json>)
    ensures Validate(JArr([
      Env("base", None, p0),
      Env("ansible_2_6", Some("whatever"), p1),
      Env("ansible_2_7", Some("base"), p2),
      Env("ansible_2_9", Some("base"), p3),
      Env("ansible_2_9_networking", Some("ansible_2_9"), p4)]))
      == Fail(AssertionError(InvalidParentMessage("whatever")))
  {
    var cfg := [
      Env("base", None, p0),
      Env("ansible_2_6", Some("whatever"), p1),
      Env("ansible_2_7", Some("base"), p2),
      Env("ansible_2_9", Some("base"), p3),
      Env("ansible_2_9_networking", Some("ansible_2_9"), p4)];
    EnvNameIs("base", None, p0);
    EnvNameIs("ansible_2_6", Some("whatever"), p1);
    EnvNameIs("ansible_2_7", Some("base"), p2);
    EnvNameIs("ansible_2_9", Some("base"), p3);
    EnvNameIs("ansible_2_9_networking", Some("ansible_2_9"), p4);
    assert forall j :: 0 <= j < |cfg| ==> PassedOver(cfg[j], "whatever");
    GetItemByNameSpec(cfg, "whatever");
    EnvPasses(cfg, "base", None, p0);
    var pairs := cfg[1].pairs;
    var tail := [("parent", JStr("whatever")), ("packages", JArr(p1))];
    assert CheckPair(cfg, "name", JStr("ansible_2_6")) == Pass;
    assert CheckPair(cfg, "parent", JStr("whatever")) == Fail(AssertionError(InvalidParentMessage("whatever")));
    assert CheckPairs(cfg, tail) == Fail(AssertionError(InvalidParentMessage("whatever")));
    assert pairs[0] == ("name", JStr("ansible_2_6")) && pairs[1..] == tail;
    assert CheckItem(cfg, cfg[1]) == Fail(AssertionError(InvalidParentMessage("whatever")));
    assert cfg[1..][0] == cfg[1];
    assert CheckItems(cfg, cfg[1..]) == Fail(AssertionError(InvalidParentMessage("whatever")));
    assert CheckItems(cfg, cfg) == Fail(AssertionError(InvalidParentMessage("whatever")));
  }

  /** The remaining configurations of the unit tests, with the outcome the code gives. */
  lemma {:induction false} UnitTestRejections()
    ensures Validate(JObj([("venvs", JArr([Env("test", None, [])]))]))
      == Fail(AssertionError(NotAListMessage))
    ensures Validate(JArr([JObj([("whatever", JStr("test")), ("packages", JArr([]))])]))
      == Fail(AssertionError(InvalidKeyMessage("whatever")))
    ensures Validate(JArr([JObj([("name", JBool(false)), ("packages", JArr([]))])]))
      == Fail(AssertionError(InvalidTypeMessage("name", StrType)))
    ensures Validate(JArr([JStr("a string")])) == Fail(AssertionError(NotADictMessage))
  {
  }
}
