/** The airport details panel (components/AirportData.tsx): its runway expand
    flags, the "no data" case and the grouping of radio frequencies into ATC,
    UNICOM, AWOS/ASOS and the rest. */
module AirportData {
  import opened Wrappers
  import opened Js
  import opened JsArray
  import ExpandToggle

  /** The four groups of `categorizedFrequencies`. */
  datatype Category = Atc | Unicom | Awos | OtherCategory

  /** The group a frequency record belongs to, by its `type` field. */
  function CategoryOf(f: Value): Category {
    var kind := Field(f, "type");
    if kind == Str("ATC") then Atc
    else if kind == Str("UNICOM") then Unicom
    else if kind == Str("AWOS/ASOS") then Awos
    else OtherCategory
  }

  predicate InCategory(c: Category, f: Value) {
    CategoryOf(f) == c
  }

  function InCategoryTest(c: Category): Value -> bool {
    f => InCategory(c, f)
  }

  /** The callback of one `filter`: `f.type === name`, which throws for a null
      or undefined entry. */
  function TypeIs(name: string): Value -> Result<bool> {
    f => var kind :- Get(f, "type"); Ok(kind == Str(name))
  }

  /** `f.type !== 'ATC' && f.type !== 'UNICOM' && f.type !== 'AWOS/ASOS'` */
  function TypeIsOther(f: Value): Result<bool> {
    var kind :- Get(f, "type");
    Ok(kind != Str("ATC") && kind != Str("UNICOM") && kind != Str("AWOS/ASOS"))
  }

  datatype Buckets = Buckets(atc: seq<Value>, unicom: seq<Value>, awos: seq<Value>, other: seq<Value>)

  /** `categorizedFrequencies`: each group is `frequencies?.filter(...) || []`.
      Missing frequencies give four empty groups; a value that is neither
      missing nor an array has no `filter` and throws. */
  function Categorize(frequencies: Value): (r: Result<Buckets>)
    ensures Nullish(frequencies) ==> r == Ok(Buckets([], [], [], []))
    ensures !Nullish(frequencies) && !frequencies.Arr? ==> r.Err?
  {
    if Nullish(frequencies) then Ok(Buckets([], [], [], []))
    else if !frequencies.Arr? then Err(TypeError("frequencies?.filter is not a function"))
    else
      var elems := frequencies.elems;
      var atc :- FilterJs(TypeIs("ATC"), elems);
      var unicom :- FilterJs(TypeIs("UNICOM"), elems);
      var awos :- FilterJs(TypeIs("AWOS/ASOS"), elems);
      var other :- FilterJs(TypeIsOther, elems);
      Ok(Buckets(atc, unicom, awos, other))
  }

  lemma CallbacksAgree(elems: seq<Value>)
    ensures forall i | 0 <= i < |elems| :: TypeIs("ATC")(elems[i]).Ok? ==> TypeIs("ATC")(elems[i]).value == InCategoryTest(Atc)(elems[i])
    ensures forall i | 0 <= i < |elems| :: TypeIs("UNICOM")(elems[i]).Ok? ==> TypeIs("UNICOM")(elems[i]).value == InCategoryTest(Unicom)(elems[i])
    ensures forall i | 0 <= i < |elems| :: TypeIs("AWOS/ASOS")(elems[i]).Ok? ==> TypeIs("AWOS/ASOS")(elems[i]).value == InCategoryTest(Awos)(elems[i])
    ensures forall i | 0 <= i < |elems| :: TypeIsOther(elems[i]).Ok? ==> TypeIsOther(elems[i]).value == InCategoryTest(OtherCategory)(elems[i])
  {
  }

  /** Over a list, the grouping succeeds iff no entry is null or undefined. */
  lemma CategorizeSucceeds(elems: seq<Value>)
    ensures Categorize(Arr(elems)).Ok? <==> forall i | 0 <= i < |elems| :: !Nullish(elems[i])
  {
    if !forall i | 0 <= i < |elems| :: !Nullish(elems[i]) {
      var i :| 0 <= i < |elems| && Nullish(elems[i]);
      assert TypeIs("ATC")(elems[i]).Err?;
    }
  }

  /** When it succeeds, each group is exactly the entries of its category, in
      the order of the list. */
  lemma CategorizeSpec(elems: seq<Value>)
    ensures Categorize(Arr(elems)).Ok? ==> var b := Categorize(Arr(elems)).value;
      && b.atc == Filter(InCategoryTest(Atc), elems)
      && b.unicom == Filter(InCategoryTest(Unicom), elems)
      && b.awos == Filter(InCategoryTest(Awos), elems)
      && b.other == Filter(InCategoryTest(OtherCategory), elems)
  {
    CallbacksAgree(elems);
    FilterJsAgrees(TypeIs("ATC"), InCategoryTest(Atc), elems);
    FilterJsAgrees(TypeIs("UNICOM"), InCategoryTest(Unicom), elems);
    FilterJsAgrees(TypeIs("AWOS/ASOS"), InCategoryTest(Awos), elems);
    FilterJsAgrees(TypeIsOther, InCategoryTest(OtherCategory), elems);
  }

  /** The four groups partition the list: together they hold every entry
      exactly as often as the list does. */
  lemma {:induction false} CategoriesPartition(elems: seq<Value>)
    ensures GroupOf(Atc, elems) + GroupOf(Unicom, elems) + GroupOf(Awos, elems) + GroupOf(OtherCategory, elems)
      == multiset(elems)
    decreases |elems|
  {
    if elems != [] {
      var x, rest := elems[0], elems[1..];
      CategoriesPartition(rest);
      assert multiset(elems) == multiset{x} + multiset(rest) by { assert elems == [x] + rest; }
      var c := CategoryOf(x);
      GroupGains(elems);
      forall d | d != c ensures GroupOf(d, elems) == GroupOf(d, rest) {
        GroupKeeps(d, elems);
      }
    }
  }

  /** The entries of one group, counted. */
  function GroupOf(c: Category, elems: seq<Value>): multiset<Value> {
    multiset(Filter(InCategoryTest(c), elems))
  }

  /** The group of the list's first entry gains that entry. */
  lemma GroupGains(elems: seq<Value>)
    requires elems != []
    ensures GroupOf(CategoryOf(elems[0]), elems) == multiset{elems[0]} + GroupOf(CategoryOf(elems[0]), elems[1..])
  {
  }

  /** Every other group is that of the rest of the list. */
  lemma GroupKeeps(c: Category, elems: seq<Value>)
    requires elems != [] && CategoryOf(elems[0]) != c
    ensures GroupOf(c, elems) == GroupOf(c, elems[1..])
  {
  }

  /** Each group keeps the order of the input list. */
  lemma CategoriesKeepOrder(elems: seq<Value>, c: Category)
    ensures SubsequenceOf(Filter(InCategoryTest(c), elems), elems)
  {
    FilterIsSubsequence(InCategoryTest(c), elems);
  }

  /** The panel: `Typography` "No airport data available" for falsy data,
      otherwise the details with their frequency groups. */
  datatype DataView = NoData(message: string) | Details(frequencies: Buckets)

  const NoDataMessage := "No airport data available"

  function RenderData(data: Value): (r: Result<DataView>)
    ensures !Truthy(data) ==> r == Ok(NoData(NoDataMessage))
    ensures Truthy(data) && r.Ok? ==> r.value.Details?
  {
    if !Truthy(data) then Ok(NoData(NoDataMessage))
    else
      var buckets :- Categorize(Field(data, "frequencies"));
      Ok(Details(buckets))
  }

  /** A record without frequencies gives four empty groups: the grouping
      itself cannot throw, and the render's `!data` test passes. */
  lemma MissingFrequencies(data: Value)
    requires Truthy(data) && Nullish(Field(data, "frequencies"))
    ensures Categorize(Field(data, "frequencies")) == Ok(Buckets([], [], [], []))
    ensures RenderData(data) == Ok(Details(Buckets([], [], [], [])))
  {
  }

  class AirportDataPanel {
    var expandedRunways: map<string, bool>
    var expandedServices: bool

    constructor ()
      ensures expandedRunways == map[] && !expandedServices
    {
      expandedRunways := map[];
      expandedServices := false;
    }

    /** `toggleExpand(id)` */
    method ToggleExpand(id: string)
      modifies this
      ensures expandedRunways == ExpandToggle.Toggled(old(expandedRunways), id)
      ensures expandedServices == old(expandedServices)
    {
      expandedRunways := ExpandToggle.Toggled(expandedRunways, id);
    }

    /** The services header's button, `setExpandedServices(!expandedServices)`. */
    method ToggleServices()
      modifies this
      ensures expandedServices == !old(expandedServices)
      ensures expandedRunways == old(expandedRunways)
    {
      expandedServices := !expandedServices;
    }
  }
}
