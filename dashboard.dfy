/** The pure helpers of app/dashboard/page.tsx: the order-status label and
    colour, the order sum and status filter, the design search and filter,
    the phone-model label of an order, and the cart-count badge. The effects
    that fill the page from storage and the database are not modelled; their
    results are the inputs here. */
module Dashboard {
  import opened Common
  import opened Text

  /** A saved design. Fields the source reads with `?.` are optional;
      `createdAt` is the parsed creation time in milliseconds, absent when
      `created_at` is empty or does not parse. */
  datatype Design = Design(
    id: string,
    name: Option<string>,
    prompt: Option<string>,
    style: Option<string>,
    price: int,
    createdAt: Option<int>,
    saved: Option<bool>)

  /** What an order item's `phone_model` holds at run time: a plain string,
      an object with optional brand and model, or nothing usable. */
  datatype PhoneModelField = AsText(text: string) | AsObject(brand: Option<string>, model: Option<string>) | Missing

  /** An order item; `None` stands for a null entry of `order_items`. */
  datatype OrderItem = OrderItem(quantity: int, price: int, phoneModel: PhoneModelField)

  datatype Order = Order(id: string, status: string, total: Option<int>, orderItems: seq<Option<OrderItem>>)

  // ---------------------------------------------------------------- status label

  /** `word.charAt(0).toUpperCase() + word.slice(1).toLowerCase()`. */
  function Capitalize(word: string): (r: string)
    ensures |r| == |word|
  {
    if word == [] then [] else [UpperChar(word[0])] + Lower(word[1..])
  }

  function CapitalizeAll(words: seq<string>): (r: seq<string>)
    ensures |r| == |words|
    ensures forall i :: 0 <= i < |words| ==> r[i] == Capitalize(words[i])
  {
    if words == [] then [] else [Capitalize(words[0])] + CapitalizeAll(words[1..])
  }

  /** `getStatusDisplayName`: 'Pending' for a missing or empty status;
      otherwise the '_'-separated words, each capitalized, joined by spaces. */
  function StatusDisplayName(status: Option<string>): (shown: string)
    ensures status.None? || status.value == "" ==> shown == "Pending"
    ensures status.Some? && status.value != "" ==> shown == TitleCase(status.value, true)
  {
    if status.None? || status.value == "" then "Pending"
    else
      SplitMapJoinIsTitleCase(status.value);
      Join(CapitalizeAll(Split(status.value, '_')), " ")
  }

  /** A character-by-character reference for the label: '_' becomes a space;
      a letter that opens a word is upper-cased and any other is lower-cased.
      `atStart` says whether position 0 opens a word. */
  function TitleCase(s: string, atStart: bool): (r: string)
    ensures |r| == |s|
    ensures forall i :: 0 <= i < |s| && s[i] == '_' ==> r[i] == ' '
    ensures forall i {:trigger r[i]} :: 0 <= i < |s| && s[i] != '_' ==>
      r[i] == (if (i == 0 && atStart) || (i > 0 && s[i - 1] == '_') then UpperChar(s[i]) else LowerChar(s[i]))
  {
    if s == [] then []
    else
      var rest := TitleCase(s[1..], s[0] == '_');
      var head := if s[0] == '_' then ' ' else if atStart then UpperChar(s[0]) else LowerChar(s[0]);
      [head] + rest
  }

  /** Split-map-join and the character reference agree: the first piece,
      capitalized or lower-cased, followed by the remaining pieces. */
  lemma {:induction false} SplitMapJoinIsTitleCase(s: string)
    ensures Join(CapitalizeAll(Split(s, '_')), " ") == TitleCase(s, true)
    ensures Lower(Split(s, '_')[0]) + JoinedTail(CapitalizeAll(Split(s, '_'))[1..]) == TitleCase(s, false)
  {
    var words := CapitalizeAll(Split(s, '_'));
    JoinFirst(words);
    if s != [] {
      SplitMapJoinIsTitleCase(s[1..]);
      if s[0] == '_' {
        SeparatorStep(s);
      } else {
        LetterStep(s);
      }
    }
  }

  /** The step of `SplitMapJoinIsTitleCase` for a leading '_': an empty first
      word, and the rest of the string opening a new word. */
  lemma SeparatorStep(s: string)
    requires s != [] && s[0] == '_'
    requires Join(CapitalizeAll(Split(s[1..], '_')), " ") == TitleCase(s[1..], true)
    ensures JoinedTail(CapitalizeAll(Split(s, '_'))[1..]) == TitleCase(s, true) == TitleCase(s, false)
    ensures Split(s, '_')[0] == "" && Capitalize(Split(s, '_')[0]) == ""
  {
    var r := Split(s[1..], '_');
    assert Split(s, '_') == [""] + r;
    assert CapitalizeAll(Split(s, '_'))[1..] == CapitalizeAll(r);
    assert TitleCase(s, true) == [' '] + TitleCase(s[1..], true);
    assert TitleCase(s, false) == [' '] + TitleCase(s[1..], true);
  }

  /** The step of `SplitMapJoinIsTitleCase` for a leading letter: it opens the
      first word, and the rest of the string continues that word. */
  lemma LetterStep(s: string)
    requires s != [] && s[0] != '_'
    requires Lower(Split(s[1..], '_')[0]) + JoinedTail(CapitalizeAll(Split(s[1..], '_'))[1..]) ==
             TitleCase(s[1..], false)
    ensures Capitalize(Split(s, '_')[0]) + JoinedTail(CapitalizeAll(Split(s, '_'))[1..]) == TitleCase(s, true)
    ensures Lower(Split(s, '_')[0]) + JoinedTail(CapitalizeAll(Split(s, '_'))[1..]) == TitleCase(s, false)
  {
    var r := Split(s[1..], '_');
    SplitLetter(s);
    CaseMappingCons(s[0], r[0]);
    var tail := JoinedTail(CapitalizeAll(r)[1..]);
    ConsAssoc(UpperChar(s[0]), Lower(r[0]), tail);
    ConsAssoc(LowerChar(s[0]), Lower(r[0]), tail);
  }

  /** Splitting a string that starts with a letter puts the letter in front of the first piece. */
  lemma SplitLetter(s: string)
    requires s != [] && s[0] != '_'
    ensures Split(s, '_')[0] == [s[0]] + Split(s[1..], '_')[0]
    ensures CapitalizeAll(Split(s, '_'))[1..] == CapitalizeAll(Split(s[1..], '_'))[1..]
  {
    var r := Split(s[1..], '_');
    assert Split(s, '_') == [[s[0]] + r[0]] + r[1..];
  }

  lemma CaseMappingCons(c: char, w: string)
    ensures Capitalize([c] + w) == [UpperChar(c)] + Lower(w)
    ensures Lower([c] + w) == [LowerChar(c)] + Lower(w)
  {
    assert ([c] + w)[1..] == w;
  }

  lemma ConsAssoc(c: char, a: string, t: string)
    ensures ([c] + a) + t == [c] + (a + t)
  {
  }

  /** What follows the first word in a join by spaces. */
  function JoinedTail(words: seq<string>): string {
    if words == [] then "" else " " + Join(words, " ")
  }

  lemma JoinFirst(words: seq<string>)
    requires words != []
    ensures Join(words, " ") == words[0] + JoinedTail(words[1..])
  {
  }

  /** The label of a non-empty status has the status's length; every '_'
      becomes a space and no '_' remains; each word begins with its letter
      upper-cased and continues lower-cased; and it has one word more than
      the status has underscores. */
  lemma StatusDisplayNameShape(status: string)
    requires status != ""
    ensures StatusDisplayName(Some(status)) == TitleCase(status, true)
    ensures |StatusDisplayName(Some(status))| == |status|
    ensures '_' !in StatusDisplayName(Some(status))
    ensures forall i :: 0 <= i < |status| && status[i] != '_' ==>
      LowerChar(StatusDisplayName(Some(status))[i]) == LowerChar(status[i])
    ensures |CapitalizeAll(Split(status, '_'))| == Count(status, '_') + 1
  {
    SplitMapJoinIsTitleCase(status);
  }

  /** A missing or empty status reads 'Pending'. */
  lemma StatusDisplayNamePending()
    ensures StatusDisplayName(None) == "Pending" && StatusDisplayName(Some("")) == "Pending"
  {
  }

  /** 'in_transit' reads 'In Transit'. */
  lemma StatusDisplayNameInTransit()
    ensures StatusDisplayName(Some("in_transit")) == "In Transit"
  {
    SplitMapJoinIsTitleCase("in_transit");
    InTransitTitleCase();
  }

  lemma InTransitTitleCase()
    ensures TitleCase("in_transit", true) == "In Transit"
  {
    var t := TitleCase("in_transit", true);
    assert t[0] == 'I' && t[1] == 'n' && t[2] == ' ' && t[3] == 'T' && t[4] == 'r';
    assert t[5] == 'a' && t[6] == 'n' && t[7] == 's' && t[8] == 'i' && t[9] == 't';
  }

  // ---------------------------------------------------------------- status colour

  /** `getStatusColor`: the class for a missing status is the default one. */
  function StatusColor(status: Option<string>): (color: string)
    ensures status.None? ==> color == "bg-gray-100 text-gray-800"
    ensures color != "bg-gray-100 text-gray-800" ==>
      status.Some? && exists i :: 0 <= i < |Stages| && Lower(status.value) in Stages[i]
  {
    if status.None? then "bg-gray-100 text-gray-800"
    else
      ColoredIsStaged(Lower(status.value));
      ColorOfLowered(Lower(status.value))
  }

  /** Only a status the switch names gets a colour other than the default. */
  lemma ColoredIsStaged(lowered: string)
    ensures ColorOfLowered(lowered) != "bg-gray-100 text-gray-800" ==>
      exists i :: 0 <= i < |Stages| && lowered in Stages[i]
  {
    if lowered == "pending" { assert lowered in Stages[0]; }
    else if lowered == "processing" || lowered == "in_progress" { assert lowered in Stages[1]; }
    else if lowered == "shipped" || lowered == "in_transit" { assert lowered in Stages[2]; }
    else if lowered == "delivered" || lowered == "completed" { assert lowered in Stages[3]; }
    else if lowered == "cancelled" { assert lowered in Stages[4]; }
  }

  /** The `switch` over the lower-cased status. */
  function ColorOfLowered(lowered: string): string {
    if lowered == "pending" then "bg-turmeric-100 text-turmeric-800"
    else if lowered == "processing" || lowered == "in_progress" then "bg-royalblue-100 text-royalblue-800"
    else if lowered == "shipped" || lowered == "in_transit" then "bg-peacock-100 text-peacock-800"
    else if lowered == "delivered" || lowered == "completed" then "bg-green-100 text-green-800"
    else if lowered == "cancelled" then "bg-red-100 text-red-800"
    else "bg-gray-100 text-gray-800"
  }

  /** The statuses the switch names, grouped by the stage they share a colour with. */
  const Stages: seq<seq<string>> :=
    [["pending"], ["processing", "in_progress"], ["shipped", "in_transit"], ["delivered", "completed"], ["cancelled"]]

  /** The colour ignores letter case. */
  lemma StatusColorIgnoresCase(status: string)
    ensures StatusColor(Some(status)) == StatusColor(Some(Lower(status)))
    ensures StatusColor(Some(status)) == StatusColor(Some(Upper(status)))
  {
    LowerIdempotent(status);
    LowerOfUpper(status);
  }

  lemma LowerOfUpper(s: string)
    ensures Lower(Upper(s)) == Lower(s)
  {
    assert forall i :: 0 <= i < |s| ==> Lower(Upper(s))[i] == LowerChar(UpperChar(s[i])) == Lower(s)[i];
  }

  /** Two statuses whose lower-cased forms name the same stage get the same
      colour; different stages get different colours; neither is gray. */
  lemma StatusColorStages(a: string, b: string, i: int, j: int)
    requires 0 <= i < |Stages| && 0 <= j < |Stages|
    requires Lower(a) in Stages[i] && Lower(b) in Stages[j]
    ensures StatusColor(Some(a)) == StatusColor(Some(b)) <==> i == j
    ensures StatusColor(Some(a)) != "bg-gray-100 text-gray-800"
  {
    LoweredStages(Lower(a), Lower(b), i, j);
  }

  lemma LoweredStages(x: string, y: string, i: int, j: int)
    requires 0 <= i < |Stages| && 0 <= j < |Stages|
    requires x in Stages[i] && y in Stages[j]
    ensures ColorOfLowered(x) == ColorOfLowered(y) <==> i == j
    ensures ColorOfLowered(x) != "bg-gray-100 text-gray-800"
  {
    var colors := ["bg-turmeric-100 text-turmeric-800", "bg-royalblue-100 text-royalblue-800",
                   "bg-peacock-100 text-peacock-800", "bg-green-100 text-green-800", "bg-red-100 text-red-800"];
    assert ColorOfLowered(x) == colors[i] by {
      if i == 0 { assert x == "pending"; }
      else if i == 1 { assert x == "processing" || x == "in_progress"; }
      else if i == 2 { assert x == "shipped" || x == "in_transit"; }
      else if i == 3 { assert x == "delivered" || x == "completed"; }
      else { assert x == "cancelled"; }
    }
    assert ColorOfLowered(y) == colors[j] by {
      if j == 0 { assert y == "pending"; }
      else if j == 1 { assert y == "processing" || y == "in_progress"; }
      else if j == 2 { assert y == "shipped" || y == "in_transit"; }
      else if j == 3 { assert y == "delivered" || y == "completed"; }
      else { assert y == "cancelled"; }
    }
  }

  lemma StatusColorDefault(status: string)
    requires forall i :: 0 <= i < |Stages| ==> Lower(status) !in Stages[i]
    ensures StatusColor(Some(status)) == "bg-gray-100 text-gray-800" == StatusColor(None)
  {
    assert Lower(status) !in Stages[0] && Lower(status) !in Stages[1] && Lower(status) !in Stages[2];
    assert Lower(status) !in Stages[3] && Lower(status) !in Stages[4];
  }

  // ---------------------------------------------------------------- rendered status badge

  /** The badge text both order lists render inline:
      `status.charAt(0).toUpperCase() + status.slice(1)`. Only the first
      character changes; the rest, underscores included, is shown as stored. */
  function RenderedStatusLabel(status: string): (shown: string)
    ensures |shown| == |status|
    ensures status != "" ==> shown[0] == UpperChar(status[0]) && shown[1..] == status[1..]
  {
    if status == "" then "" else [UpperChar(status[0])] + status[1..]
  }

  /** The badge colour both order lists render inline: an exact, case-sensitive
      match on 'delivered' and 'processing', yellow for anything else. */
  function RenderedStatusColor(status: string): (color: string)
    ensures color == "bg-green-100 text-green-800" <==> status == "delivered"
    ensures color == "bg-blue-100 text-blue-800" <==> status == "processing"
    ensures status != "delivered" && status != "processing" ==> color == "bg-yellow-100 text-yellow-800"
  {
    if status == "delivered" then "bg-green-100 text-green-800"
    else if status == "processing" then "bg-blue-100 text-blue-800"
    else "bg-yellow-100 text-yellow-800"
  }

  /** The rendered badge keeps every '_' of the status and never changes the
      letters after the first, so it differs from `getStatusDisplayName`
      whenever the status has an underscore. */
  lemma RenderedLabelKeepsUnderscores(status: string)
    requires status != ""
    ensures forall i :: 0 < i < |status| && status[i] == '_' ==> RenderedStatusLabel(status)[i] == '_'
    ensures forall i :: 0 < i < |status| && status[i] == '_' ==> StatusDisplayName(Some(status))[i] == ' '
  {
    var shown := RenderedStatusLabel(status);
    forall i | 0 < i < |status| && status[i] == '_' ensures shown[i] == '_' {
      assert shown[i] == shown[1..][i - 1] == status[1..][i - 1];
    }
  }

  /** The order lists render 'in_transit' as 'In_transit'. */
  lemma RenderedInTransit()
    ensures RenderedStatusLabel("in_transit") == "In_transit"
  {
    var status := "in_transit";
    var shown := RenderedStatusLabel(status);
    assert UpperChar(status[0]) == 'I';
    assert shown == ['I'] + status[1..];
  }

  /** The rendered badge for 'in_transit' is not what `getStatusDisplayName`
      would give ('In Transit'); the page never calls that helper. */
  lemma RenderedInTransitDiffersFromHelper()
    ensures RenderedStatusLabel("in_transit") != StatusDisplayName(Some("in_transit"))
  {
    var status := "in_transit";
    assert status[2] == '_';
    RenderedLabelKeepsUnderscores(status);
  }

  /** A 'pending' order is rendered with the yellow badge, not the class
      `getStatusColor` would pick for it. */
  lemma RenderedPendingColorDiffersFromHelper()
    ensures RenderedStatusColor("pending") == "bg-yellow-100 text-yellow-800"
    ensures RenderedStatusColor("pending") != StatusColor(Some("pending"))
  {
    var status := "pending";
    assert Lower(status) == status;
  }

  // ---------------------------------------------------------------- orders

  /** `order?.total || 0`. */
  function OrderTotal(order: Order): int {
    order.total.GetOr(0)
  }

  /** `totalOrdersAmount`. */
  function TotalOrdersAmount(orders: seq<Order>): (amount: int)
    ensures orders == [] ==> amount == 0
    ensures (forall i :: 0 <= i < |orders| ==> OrderTotal(orders[i]) >= 0) ==> amount >= 0
  {
    if forall i :: 0 <= i < |orders| ==> OrderTotal(orders[i]) >= 0 then
      SumNonNegative(orders, OrderTotal);
      Sum(orders, OrderTotal)
    else
      Sum(orders, OrderTotal)
  }

  /** The amount is 0 for no orders, an order without a total adds nothing,
      and each further order adds its total. */
  lemma TotalOrdersAmountAdds(orders: seq<Order>, order: Order)
    ensures TotalOrdersAmount([]) == 0
    ensures TotalOrdersAmount(orders + [order]) == TotalOrdersAmount(orders) + OrderTotal(order)
    ensures order.total.None? ==> TotalOrdersAmount(orders + [order]) == TotalOrdersAmount(orders)
  {
    SumAppend(orders, [order], OrderTotal);
    SumSingleton(order, OrderTotal);
  }

  /** `filteredOrders`: every order for 'all', otherwise the orders whose
      status equals the filter ignoring case, in their original order. */
  function FilteredOrders(orders: seq<Order>, filterStatus: string): (r: seq<Order>)
    ensures filterStatus == "all" ==> r == orders
    ensures filterStatus != "all" ==>
      forall o :: o in r <==> o in orders && Lower(o.status) == Lower(filterStatus)
    ensures IsSubsequence(r, orders)
  {
    if filterStatus == "all" then
      SubsequenceOfItself(orders);
      orders
    else
      var p := (o: Order) => Lower(o.status) == Lower(filterStatus);
      FilterIsSubsequence(orders, p);
      Filter(orders, p)
  }

  /** The status filter ignores the case of the filter value: 'SHIPPED' and
      'shipped' select the same orders. */
  lemma FilteredOrdersIgnoreCase(orders: seq<Order>, filterStatus: string)
    requires filterStatus != "all" && Lower(filterStatus) != "all"
    ensures FilteredOrders(orders, filterStatus) == FilteredOrders(orders, Lower(filterStatus))
  {
    LowerIdempotent(filterStatus);
    FilterSamePredicate(orders, (o: Order) => Lower(o.status) == Lower(filterStatus),
                        (o: Order) => Lower(o.status) == Lower(Lower(filterStatus)));
  }

  /** `getOrderPhoneModel`: 'Phone Case' without a first item or a usable
      `phone_model`; a string as it is; otherwise the non-empty parts of
      brand and model joined by a space. */
  function OrderPhoneModel(order: Order): (shown: string)
    ensures shown != "Phone Case" ==>
      |order.orderItems| > 0 && order.orderItems[0].Some? && !order.orderItems[0].value.phoneModel.Missing?
  {
    if |order.orderItems| == 0 || order.orderItems[0].None? then "Phone Case"
    else
      match order.orderItems[0].value.phoneModel
      case AsText(text) => text
      case AsObject(brand, model) => Join(Filter([brand.GetOr(""), model.GetOr("")], NonEmpty), " ")
      case Missing => "Phone Case"
  }

  predicate NonEmpty(s: string) { s != "" }

  /** The label of an object phone model, case by case. */
  lemma OrderPhoneModelCases(order: Order, brand: string, model: string)
    requires |order.orderItems| > 0 && order.orderItems[0].Some?
    requires order.orderItems[0].value.phoneModel == AsObject(Some(brand), Some(model))
    ensures brand != "" && model != "" ==> OrderPhoneModel(order) == brand + " " + model
    ensures brand != "" && model == "" ==> OrderPhoneModel(order) == brand
    ensures brand == "" && model != "" ==> OrderPhoneModel(order) == model
    ensures brand == "" && model == "" ==> OrderPhoneModel(order) == ""
  {
    var parts := [brand, model];
    assert parts[1..] == [model];
    var kept := Filter(parts, NonEmpty);
    assert kept == (if brand != "" then [brand] else []) + Filter([model], NonEmpty);
    assert Filter([model], NonEmpty) == (if model != "" then [model] else []) + Filter([], NonEmpty);
    if brand != "" && model != "" {
      assert kept == [brand, model];
      assert kept[1..] == [model];
      assert Join(kept, " ") == brand + " " + Join([model], " ");
    }
  }

  /** An order without items, or whose first item is null or has no usable
      phone model, reads 'Phone Case'; a string phone model is shown as is. */
  lemma OrderPhoneModelFallbacks(order: Order)
    ensures |order.orderItems| == 0 ==> OrderPhoneModel(order) == "Phone Case"
    ensures |order.orderItems| > 0 && order.orderItems[0].None? ==> OrderPhoneModel(order) == "Phone Case"
    ensures |order.orderItems| > 0 && order.orderItems[0].Some? && order.orderItems[0].value.phoneModel.Missing? ==>
      OrderPhoneModel(order) == "Phone Case"
    ensures |order.orderItems| > 0 && order.orderItems[0].Some? && order.orderItems[0].value.phoneModel.AsText? ==>
      OrderPhoneModel(order) == order.orderItems[0].value.phoneModel.text
  {
  }

  // ---------------------------------------------------------------- designs

  /** Seven days in milliseconds. */
  const RecentWindowMs: int := 7 * 24 * 60 * 60 * 1000

  /** `field?.toLowerCase().includes(searchLower)`, false for a missing field. */
  predicate FieldMatches(field: Option<string>, searchLower: string) {
    field.Some? && Contains(Lower(field.value), searchLower)
  }

  predicate MatchesSearch(design: Design, searchTerm: string) {
    var searchLower := Lower(searchTerm);
    FieldMatches(design.prompt, searchLower) || FieldMatches(design.style, searchLower) ||
    FieldMatches(design.name, searchLower)
  }

  /** Created strictly after a week before `now`. */
  predicate IsRecent(design: Design, now: int) {
    design.createdAt.Some? && design.createdAt.value > now - RecentWindowMs
  }

  /** `matchesFilter` as written: only 'all' and 'recent' are recognised. */
  predicate MatchesFilter(design: Design, filterStatus: string, now: int) {
    filterStatus == "all" || (filterStatus == "recent" && IsRecent(design, now))
  }

  /** `filteredDesigns`, with the current time `now` as an input. */
  function FilteredDesigns(designs: seq<Design>, searchTerm: string, filterStatus: string, now: int): (r: seq<Design>)
    ensures forall d :: d in r <==> d in designs && MatchesSearch(d, searchTerm) && MatchesFilter(d, filterStatus, now)
    ensures IsSubsequence(r, designs)
  {
    var p := (d: Design) => MatchesSearch(d, searchTerm) && MatchesFilter(d, filterStatus, now);
    FilterIsSubsequence(designs, p);
    Filter(designs, p)
  }

  /** An empty search matches any design with a prompt, a style or a name:
      with 'all' exactly those designs are listed. */
  lemma EmptySearchKeepsDescribedDesigns(designs: seq<Design>, now: int)
    ensures forall d :: d in FilteredDesigns(designs, "", "all", now) <==>
      d in designs && (d.prompt.Some? || d.style.Some? || d.name.Some?)
  {
    forall d: Design
      ensures MatchesSearch(d, "") <==> d.prompt.Some? || d.style.Some? || d.name.Some?
    {
      if d.prompt.Some? { ContainsEmpty(Lower(d.prompt.value)); }
      if d.style.Some? { ContainsEmpty(Lower(d.style.value)); }
      if d.name.Some? { ContainsEmpty(Lower(d.name.value)); }
    }
  }

  /** Under 'recent' every listed design was created within the last week. */
  lemma RecentFilterIsRecent(designs: seq<Design>, searchTerm: string, now: int)
    ensures forall d :: d in FilteredDesigns(designs, searchTerm, "recent", now) ==>
      d.createdAt.Some? && d.createdAt.value > now - 604800000
  {
  }

  /** As written, the 'Saved Only' option lists nothing at all. */
  lemma SavedFilterMatchesNothing(designs: seq<Design>, searchTerm: string, now: int)
    ensures FilteredDesigns(designs, searchTerm, "saved", now) == []
  {
    var p := (d: Design) => MatchesSearch(d, searchTerm) && MatchesFilter(d, "saved", now);
    FilterNone(designs, p);
  }

  /** The evidently intended filter: 'saved' keeps the designs marked saved. */
  predicate MatchesFilterIntended(design: Design, filterStatus: string, now: int) {
    filterStatus == "all" || (filterStatus == "recent" && IsRecent(design, now)) ||
    (filterStatus == "saved" && design.saved == Some(true))
  }

  function FilteredDesignsIntended(designs: seq<Design>, searchTerm: string, filterStatus: string, now: int): (r: seq<Design>)
    ensures forall d :: d in r <==> d in designs && MatchesSearch(d, searchTerm) && MatchesFilterIntended(d, filterStatus, now)
    ensures IsSubsequence(r, designs)
  {
    var p := (d: Design) => MatchesSearch(d, searchTerm) && MatchesFilterIntended(d, filterStatus, now);
    FilterIsSubsequence(designs, p);
    Filter(designs, p)
  }

  /** With the intended filter, 'saved' lists exactly the saved designs that
      match the search, and every other option behaves as written. */
  lemma IntendedSavedFilter(designs: seq<Design>, searchTerm: string, filterStatus: string, now: int)
    ensures forall d :: d in FilteredDesignsIntended(designs, searchTerm, "saved", now) <==>
      d in designs && d.saved == Some(true) && MatchesSearch(d, searchTerm)
    ensures filterStatus != "saved" ==>
      FilteredDesignsIntended(designs, searchTerm, filterStatus, now) == FilteredDesigns(designs, searchTerm, filterStatus, now)
  {
    if filterStatus != "saved" {
      FilterSamePredicate(designs,
        (d: Design) => MatchesSearch(d, searchTerm) && MatchesFilterIntended(d, filterStatus, now),
        (d: Design) => MatchesSearch(d, searchTerm) && MatchesFilter(d, filterStatus, now));
    }
  }

  // ---------------------------------------------------------------- cart badge

  /** `item.quantity || 0`. */
  function StoredQuantity(quantity: Option<int>): int {
    quantity.GetOr(0)
  }

  /** `updateCartCount` over the quantities of the values stored under 'cart'
      (no values when the key is absent). */
  function CartCount(quantities: seq<Option<int>>): (count: int)
    ensures quantities == [] ==> count == 0
    ensures (forall i :: 0 <= i < |quantities| ==> StoredQuantity(quantities[i]) >= 0) ==> count >= 0
  {
    if forall i :: 0 <= i < |quantities| ==> StoredQuantity(quantities[i]) >= 0 then
      SumNonNegative(quantities, StoredQuantity);
      Sum(quantities, StoredQuantity)
    else
      Sum(quantities, StoredQuantity)
  }

  /** With no stored values the count is 0; a value without a quantity adds nothing. */
  lemma CartCountAdds(quantities: seq<Option<int>>, q: Option<int>)
    ensures CartCount([]) == 0
    ensures CartCount(quantities + [q]) == CartCount(quantities) + q.GetOr(0)
  {
    SumAppend(quantities, [q], StoredQuantity);
    SumSingleton(q, StoredQuantity);
  }

  /** The header badge: shown only for a positive count, capped at 9. */
  function CartBadge(count: int): (badge: Option<int>)
    ensures badge.Some? <==> count > 0
    ensures badge.Some? ==> 1 <= badge.value <= 9 && badge.value <= count
    ensures badge.Some? && count <= 9 ==> badge.value == count
    ensures badge.Some? && count > 9 ==> badge.value == 9
  {
    if count > 0 then Some(if count < 9 then count else 9) else None
  }
}
