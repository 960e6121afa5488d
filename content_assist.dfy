/**
 * The content-assist processor that aggregates the proposals of the
 * registered completion-proposal categories and, during one assist session,
 * cycles through "the default mix" and then every category that asked for a
 * separate command, one per invocation.
 *
 * The proposal computers of a category are foreign code: what a category
 * computes for the current invocation is the parameter `compute`.
 */
module ContentAssist {
  import opened Wrappers
  import opened Sequences

  /** A category of the completion-proposal-computer registry. */
  datatype Category = Category(
    name: string,
    sortOrder: int,
    included: bool,                  // part of the default mix
    separateCommand: bool,           // offered on its own while cycling
    computerPartitions: set<string>) // the partitions it has computers for
  {
    predicate HasComputers(partition: string) {
      partition in computerPartitions
    }
  }

  predicate InDefaultMix(c: Category, partition: string) {
    c.included && c.HasComputers(partition)
  }

  predicate IsSeparate(c: Category, partition: string) {
    c.separateCommand && c.HasComputers(partition)
  }

  /** The default mix: the included categories with computers, in registry order. */
  function DefaultCategories(registry: seq<Category>, partition: string): seq<Category> {
    Filter(registry, (c: Category) => InDefaultMix(c, partition))
  }

  /** The separate-command categories with computers, in registry order (before sorting). */
  function SeparateCandidates(registry: seq<Category>, partition: string): seq<Category> {
    Filter(registry, (c: Category) => IsSeparate(c, partition))
  }

  /** The separate categories, stably sorted by ascending sort order. */
  function SeparateCategories(registry: seq<Category>, partition: string): seq<Category> {
    SortByOrder(SeparateCandidates(registry, partition))
  }

  // ---------------------------------------------------------------------
  // Collections.sort with the comparator on sort orders: a stable sort.
  // ---------------------------------------------------------------------

  ghost predicate SortedByOrder(s: seq<Category>) {
    forall i, j :: 0 <= i < j < |s| ==> s[i].sortOrder <= s[j].sortOrder
  }

  /** The categories of `s` with sort order `k`, in their order in `s`. */
  function WithSortOrder(s: seq<Category>, k: int): seq<Category> {
    Filter(s, (c: Category) => c.sortOrder == k)
  }

  /** Puts `c` in front of the first element whose sort order is not smaller. */
  function InsertByOrder(c: Category, s: seq<Category>): seq<Category> {
    if s == [] || c.sortOrder <= s[0].sortOrder then [c] + s
    else [s[0]] + InsertByOrder(c, s[1..])
  }

  function SortByOrder(s: seq<Category>): seq<Category> {
    if s == [] then [] else InsertByOrder(s[0], SortByOrder(s[1..]))
  }

  lemma {:induction false} InsertByOrderPermutes(c: Category, s: seq<Category>)
    ensures multiset(InsertByOrder(c, s)) == multiset(s) + multiset{c}
  {
    if s != [] && c.sortOrder > s[0].sortOrder {
      InsertByOrderPermutes(c, s[1..]);
      assert s == [s[0]] + s[1..];
    }
  }

  /** Inserting keeps a lower bound that `c` and every element of `s` respect. */
  lemma {:induction false} InsertByOrderBounded(c: Category, s: seq<Category>, lo: int)
    requires lo <= c.sortOrder && forall i :: 0 <= i < |s| ==> lo <= s[i].sortOrder
    ensures forall i :: 0 <= i < |InsertByOrder(c, s)| ==> lo <= InsertByOrder(c, s)[i].sortOrder
  {
    if s != [] && c.sortOrder > s[0].sortOrder {
      InsertByOrderBounded(c, s[1..], lo);
    }
  }

  lemma {:induction false} InsertByOrderSorted(c: Category, s: seq<Category>)
    requires SortedByOrder(s)
    ensures SortedByOrder(InsertByOrder(c, s))
  {
    if s != [] && c.sortOrder > s[0].sortOrder {
      var rest := InsertByOrder(c, s[1..]);
      InsertByOrderSorted(c, s[1..]);
      InsertByOrderBounded(c, s[1..], s[0].sortOrder);
      var r := [s[0]] + rest;
      forall i, j | 0 <= i < j < |r| ensures r[i].sortOrder <= r[j].sortOrder {
        assert r[j] == rest[j - 1];
        if i > 0 {
          assert r[i] == rest[i - 1];
        }
      }
    }
  }

  lemma WithSortOrderConcat(a: seq<Category>, b: seq<Category>, k: int)
    ensures WithSortOrder(a + b, k) == WithSortOrder(a, k) + WithSortOrder(b, k)
  {
    FilterConcat(a, b, (c: Category) => c.sortOrder == k);
  }

  lemma WithSortOrderSingleton(c: Category, k: int)
    ensures WithSortOrder([c], k) == if c.sortOrder == k then [c] else []
  {
    FilterSingleton(c, (x: Category) => x.sortOrder == k);
  }

  /** Inserting `c` puts it before every element with its own sort order. */
  lemma {:induction false} InsertByOrderStable(c: Category, s: seq<Category>, k: int)
    ensures WithSortOrder(InsertByOrder(c, s), k)
         == (if c.sortOrder == k then [c] else []) + WithSortOrder(s, k)
  {
    WithSortOrderSingleton(c, k);
    if s == [] || c.sortOrder <= s[0].sortOrder {
      WithSortOrderConcat([c], s, k);
    } else {
      var head := WithSortOrder([s[0]], k);
      var mine := if c.sortOrder == k then [c] else [];
      InsertByOrderStable(c, s[1..], k);
      WithSortOrderConcat([s[0]], InsertByOrder(c, s[1..]), k);
      WithSortOrderConcat([s[0]], s[1..], k);
      WithSortOrderSingleton(s[0], k);
      assert s == [s[0]] + s[1..];
      // c and s[0] have different sort orders, so at most one of them is kept
      var rest := WithSortOrder(s[1..], k);
      assert WithSortOrder(InsertByOrder(c, s), k) == head + (mine + rest);
      assert WithSortOrder(s, k) == head + rest;
      if head == [] {
        assert head + (mine + rest) == mine + rest;
        assert head + rest == rest;
      } else {
        assert mine == [];
        assert mine + rest == rest;
        assert mine + (head + rest) == head + rest;
      }
    }
  }

  /**
   * The sort used for the separate categories orders them by sort order, is a
   * permutation, and is stable: the categories sharing one sort order keep
   * their registry order.
   */
  lemma {:induction false} SortByOrderCorrect(s: seq<Category>)
    ensures SortedByOrder(SortByOrder(s))
    ensures multiset(SortByOrder(s)) == multiset(s)
    ensures forall k :: WithSortOrder(SortByOrder(s), k) == WithSortOrder(s, k)
  {
    if s != [] {
      SortByOrderCorrect(s[1..]);
      InsertByOrderSorted(s[0], SortByOrder(s[1..]));
      InsertByOrderPermutes(s[0], SortByOrder(s[1..]));
      assert s == [s[0]] + s[1..];
      forall k ensures WithSortOrder(SortByOrder(s), k) == WithSortOrder(s, k) {
        InsertByOrderStable(s[0], SortByOrder(s[1..]), k);
        WithSortOrderConcat([s[0]], s[1..], k);
        WithSortOrderSingleton(s[0], k);
      }
    }
  }

  // ---------------------------------------------------------------------
  // The iteration sequence and what one invocation selects from it.
  // ---------------------------------------------------------------------

  /** One singleton list per category, in order. */
  function Singletons(s: seq<Category>): (r: seq<seq<Category>>)
    ensures |r| == |s|
    ensures forall i :: 0 <= i < |s| ==> r[i] == [s[i]]
  {
    if s == [] then [] else Singletons(s[..|s| - 1]) + [[s[|s| - 1]]]
  }

  /**
   * The iteration sequence of a session: the default mix first, then one
   * singleton list per separate category. It is never empty.
   */
  function CategoryIteration(registry: seq<Category>, partition: string): (it: seq<seq<Category>>)
    ensures |it| == 1 + |SeparateCategories(registry, partition)|
    ensures it[0] == DefaultCategories(registry, partition)
    ensures forall i :: 1 <= i < |it| ==> it[i] == [SeparateCategories(registry, partition)[i - 1]]
  {
    [DefaultCategories(registry, partition)] + Singletons(SeparateCategories(registry, partition))
  }

  /** The element of the iteration sequence consulted at a given repetition. */
  function Selection(it: seq<seq<Category>>, repetition: nat): seq<Category>
    requires |it| >= 1
  {
    it[repetition % |it|]
  }

  /** The default mix holds exactly the included categories with computers, in registry order. */
  lemma DefaultCategoriesSpec(registry: seq<Category>, partition: string)
    ensures forall c :: c in DefaultCategories(registry, partition) <==> c in registry && InDefaultMix(c, partition)
    ensures forall c :: multiset(DefaultCategories(registry, partition))[c]
                     == if InDefaultMix(c, partition) then multiset(registry)[c] else 0
    ensures Subsequence(DefaultCategories(registry, partition), registry)
  {
    var p := (c: Category) => InDefaultMix(c, partition);
    forall c ensures multiset(DefaultCategories(registry, partition))[c]
                  == if InDefaultMix(c, partition) then multiset(registry)[c] else 0 {
      FilterCount(registry, p, c);
    }
    FilterIsSubsequence(registry, p);
  }

  /**
   * The separate categories are exactly the separate-command categories with
   * computers, sorted by sort order; ties keep registry order.
   */
  lemma SeparateCategoriesSpec(registry: seq<Category>, partition: string)
    ensures SortedByOrder(SeparateCategories(registry, partition))
    ensures forall c :: multiset(SeparateCategories(registry, partition))[c]
                     == if IsSeparate(c, partition) then multiset(registry)[c] else 0
    ensures forall c :: c in SeparateCategories(registry, partition) <==> c in registry && IsSeparate(c, partition)
    ensures forall k :: WithSortOrder(SeparateCategories(registry, partition), k)
                     == WithSortOrder(SeparateCandidates(registry, partition), k)
  {
    var p := (c: Category) => IsSeparate(c, partition);
    var candidates := SeparateCandidates(registry, partition);
    SortByOrderCorrect(candidates);
    forall c ensures multiset(SeparateCategories(registry, partition))[c]
                  == if IsSeparate(c, partition) then multiset(registry)[c] else 0 {
      FilterCount(registry, p, c);
    }
    forall c ensures c in SeparateCategories(registry, partition) <==> c in registry && IsSeparate(c, partition) {
      assert c in SeparateCategories(registry, partition) <==> c in multiset(SeparateCategories(registry, partition));
      assert c in registry <==> c in multiset(registry);
    }
  }

  /**
   * Successive invocations of one session cycle through the default mix and
   * then every separate category, one at a time, and start over.
   */
  lemma SelectionCycle(registry: seq<Category>, partition: string, k: nat)
    ensures var it := CategoryIteration(registry, partition);
            var sep := SeparateCategories(registry, partition);
            Selection(it, k) == (if k % (|sep| + 1) == 0 then DefaultCategories(registry, partition)
                                 else [sep[k % (|sep| + 1) - 1]])
  {
  }

  // ---------------------------------------------------------------------
  // Labels and the messages shown by the assistant.
  // ---------------------------------------------------------------------

  /** `name` with every `&` (a mnemonic marker) removed. */
  function StripAmpersands(name: string): (r: string)
    ensures '&' !in r
    ensures '&' !in name ==> r == name
  {
    var keep := (ch: char) => ch != '&';
    if '&' !in name then FilterAllKept(name, keep); Filter(name, keep)
    else Filter(name, keep)
  }

  /**
   * Stripping removes the `&`s and nothing else: the other characters keep
   * their number and their order, and stripping again changes nothing.
   */
  lemma StripAmpersandsSpec(name: string)
    ensures Subsequence(StripAmpersands(name), name)
    ensures forall ch :: ch != '&' ==> multiset(StripAmpersands(name))[ch] == multiset(name)[ch]
    ensures StripAmpersands(StripAmpersands(name)) == StripAmpersands(name)
  {
    var p := (ch: char) => ch != '&';
    FilterIsSubsequence(name, p);
    forall ch | ch != '&' ensures multiset(StripAmpersands(name))[ch] == multiset(name)[ch] {
      FilterCount(name, p, ch);
    }
  }

  datatype Label = DefaultProposals | CategoryName(text: string)

  /** How the command that cycles is offered: a key sequence, or a click. */
  datatype Gesture = PressGesture(trigger: string) | ClickGesture

  /** The arguments of the "press {1} to show {2}" message of the assistant. */
  datatype IterationMessage = IterationMessage(current: Label, gesture: Gesture, next: Label)

  /** The argument of the "no {0} proposals" message of the assistant. */
  datatype EmptyMessage = EmptyMessage(current: Label)

  /** The gesture of the content-assist command, from its active key bindings. */
  function IterationGesture(activeTriggers: seq<string>): Gesture {
    if |activeTriggers| > 0 then PressGesture(activeTriggers[0]) else ClickGesture
  }

  /**
   * The label of the element at a repetition: the default label at index 0,
   * otherwise the `&`-free name of that element's single category.
   */
  function CategoryLabel(it: seq<seq<Category>>, repetition: nat): (r: Label)
    requires |it| >= 1
    requires forall i :: 1 <= i < |it| ==> |it[i]| >= 1
    ensures r == DefaultProposals <==> repetition % |it| == 0
    ensures r.CategoryName? ==> '&' !in r.text
  {
    var iteration := repetition % |it|;
    if iteration == 0 then DefaultProposals
    else CategoryName(StripAmpersands(it[iteration][0].name))
  }

  /** Within a session, a category's label names the one separate category then consulted. */
  lemma LabelNamesSelection(registry: seq<Category>, partition: string, repetition: nat)
    ensures var it := CategoryIteration(registry, partition);
            var shown := CategoryLabel(it, repetition);
            (shown == DefaultProposals ==> Selection(it, repetition) == DefaultCategories(registry, partition)) &&
            (shown.CategoryName? ==>
               exists c :: Selection(it, repetition) == [c] && IsSeparate(c, partition) &&
                           shown.text == StripAmpersands(c.name))
  {
    var it := CategoryIteration(registry, partition);
    var sep := SeparateCategories(registry, partition);
    var j := repetition % |it|;
    if j != 0 {
      SeparateCategoriesSpec(registry, partition);
      var c := sep[j - 1];
      assert Selection(it, repetition) == [c];
      assert c in sep;
    }
  }

  // ---------------------------------------------------------------------
  // Collecting proposals.
  // ---------------------------------------------------------------------

  /** The proposals of every category, concatenated in category order. */
  function Collected<P>(categories: seq<Category>, compute: Category -> seq<P>): seq<P> {
    if categories == [] then []
    else Collected(categories[..|categories| - 1], compute) + compute(categories[|categories| - 1])
  }

  lemma {:induction false} CollectedAppend<P>(categories: seq<Category>, c: Category, compute: Category -> seq<P>)
    ensures Collected(categories + [c], compute) == Collected(categories, compute) + compute(c)
  {
    assert (categories + [c])[..|categories + [c]| - 1] == categories;
  }

  /** A proposal is collected iff some consulted category computed it. */
  lemma {:induction false} CollectedOrigin<P>(categories: seq<Category>, compute: Category -> seq<P>, x: P)
    ensures x in Collected(categories, compute) <==> exists c :: c in categories && x in compute(c)
  {
    if categories != [] {
      var init := categories[..|categories| - 1];
      var last := categories[|categories| - 1];
      CollectedOrigin(init, compute, x);
      assert categories == init + [last];
      if x in Collected(categories, compute) && x !in compute(last) {
        var c :| c in init && x in compute(c);
        assert c in categories;
      }
    }
  }

  // ---------------------------------------------------------------------
  // The assistant and the processor.
  // ---------------------------------------------------------------------

  /** The parts of the content assistant's state that the processor sets. */
  class ContentAssistant {
    var cyclingMode: bool
    var showEmptyList: bool
    var message: Option<IterationMessage>
    var emptyMessage: Option<EmptyMessage>

    constructor ()
      ensures !cyclingMode && !showEmptyList && message == None && emptyMessage == None
    {
      cyclingMode, showEmptyList := false, false;
      message, emptyMessage := None, None;
    }
  }

  class ContentAssistProcessor {
    const registry: seq<Category>    // the registry's categories, fixed at construction
    const partition: string
    const assistant: ContentAssistant
    var completionAutoActivationCharacters: array?<char>

    // cycling state; repetition is -1 and there is no iteration outside a session
    var repetition: int
    var categoryIteration: Option<seq<seq<Category>>>
    var iterationGesture: Option<Gesture>

    ghost predicate Valid()
      reads this
    {
      match categoryIteration
      case None => repetition == -1 && iterationGesture == None
      case Some(it) =>
        repetition >= 0 && it == CategoryIteration(registry, partition) && iterationGesture.Some?
    }

    /** The categories the next invocation consults. */
    ghost function CurrentSelection(): seq<Category>
      reads this
      requires Valid()
    {
      match categoryIteration
      case None => registry
      case Some(it) => Selection(it, repetition)
    }

    constructor (assistant: ContentAssistant, partition: string, registry: seq<Category>)
      ensures Valid()
      ensures this.assistant == assistant && this.partition == partition && this.registry == registry
      ensures categoryIteration == None && completionAutoActivationCharacters == null
    {
      this.registry := registry;
      this.partition := partition;
      this.assistant := assistant;
      completionAutoActivationCharacters := null;
      repetition := -1;
      categoryIteration := None;
      iterationGesture := None;
    }

    method SetCompletionProposalAutoActivationCharacters(activationSet: array?<char>)
      modifies this`completionAutoActivationCharacters
      ensures CompletionProposalAutoActivationCharacters() == activationSet
    {
      completionAutoActivationCharacters := activationSet;
    }

    function CompletionProposalAutoActivationCharacters(): array?<char>
      reads this
    {
      completionAutoActivationCharacters
    }

    method GetDefaultCategories() returns (included: seq<Category>)
      ensures included == DefaultCategories(registry, partition)
    {
      included := [];
      for i := 0 to |registry|
        invariant included == DefaultCategories(registry[..i], partition)
      {
        var category := registry[i];
        FilterAppend(registry[..i], category, (c: Category) => InDefaultMix(c, partition));
        assert registry[..i + 1] == registry[..i] + [category];
        if category.included && category.HasComputers(partition) {
          included := included + [category];
        }
      }
      assert registry[..|registry|] == registry;
    }

    method GetSeparateCategories() returns (sorted: seq<Category>)
      ensures sorted == SeparateCategories(registry, partition)
    {
      sorted := [];
      for i := 0 to |registry|
        invariant sorted == SeparateCandidates(registry[..i], partition)
      {
        var category := registry[i];
        FilterAppend(registry[..i], category, (c: Category) => IsSeparate(c, partition));
        assert registry[..i + 1] == registry[..i] + [category];
        if category.separateCommand && category.HasComputers(partition) {
          sorted := sorted + [category];
        }
      }
      assert registry[..|registry|] == registry;
      sorted := SortByOrder(sorted);
    }

    method GetCategoryIteration() returns (sequence: seq<seq<Category>>)
      ensures sequence == CategoryIteration(registry, partition)
    {
      var included := GetDefaultCategories();
      sequence := [included];
      var separate := GetSeparateCategories();
      for i := 0 to |separate|
        invariant sequence == [included] + Singletons(separate[..i])
      {
        assert separate[..i + 1][..i] == separate[..i];
        sequence := sequence + [[separate[i]]];
      }
      assert separate[..|separate|] == separate;
    }

    /** The listener's reaction to the start of an assist session. */
    method AssistSessionStarted(eventProcessor: object, eventAssistant: ContentAssistant, activeTriggers: seq<string>)
      requires Valid()
      modifies this`categoryIteration, this`repetition, this`iterationGesture, eventAssistant
      ensures Valid()
      ensures eventProcessor != this ==>
                categoryIteration == old(categoryIteration) && repetition == old(repetition) &&
                iterationGesture == old(iterationGesture) && unchanged(eventAssistant)
      ensures eventProcessor == this ==>
                var it := CategoryIteration(registry, partition);
                var gesture := IterationGesture(activeTriggers);
                && categoryIteration == Some(it) && repetition == 0 && iterationGesture == Some(gesture)
                && eventAssistant.cyclingMode == (|it| > 1)
                && eventAssistant.showEmptyList == (|it| > 1)
                && eventAssistant.message == (if |it| > 1
                                              then Some(IterationMessage(CategoryLabel(it, 0), gesture, CategoryLabel(it, 1)))
                                              else old(eventAssistant.message))
                && eventAssistant.emptyMessage == old(eventAssistant.emptyMessage)
    {
      if eventProcessor != this {
        return;
      }
      var it := GetCategoryIteration();
      categoryIteration := Some(it);
      repetition := 0;
      var gesture := IterationGesture(activeTriggers);
      iterationGesture := Some(gesture);
      if |it| == 1 {
        eventAssistant.cyclingMode := false;
        eventAssistant.showEmptyList := false;
      } else {
        eventAssistant.cyclingMode := true;
        eventAssistant.message := Some(IterationMessage(CategoryLabel(it, repetition), gesture, CategoryLabel(it, repetition + 1)));
        eventAssistant.showEmptyList := true;
      }
    }

    /** The listener's reaction to the end of an assist session. */
    method AssistSessionEnded(eventProcessor: object, eventAssistant: ContentAssistant)
      requires Valid()
      modifies this`categoryIteration, this`repetition, this`iterationGesture, eventAssistant
      ensures Valid()
      ensures eventProcessor != this ==>
                categoryIteration == old(categoryIteration) && repetition == old(repetition) &&
                iterationGesture == old(iterationGesture) && unchanged(eventAssistant)
      ensures eventProcessor == this ==>
                && categoryIteration == None && repetition == -1 && iterationGesture == None
                && !eventAssistant.cyclingMode && !eventAssistant.showEmptyList
                && eventAssistant.message == old(eventAssistant.message)
                && eventAssistant.emptyMessage == old(eventAssistant.emptyMessage)
    {
      if eventProcessor != this {
        return;
      }
      categoryIteration := None;
      repetition := -1;
      iterationGesture := None;
      eventAssistant.showEmptyList := false;
      eventAssistant.cyclingMode := false;
    }

    /**
     * The categories to consult now. Outside a session: the whole registry,
     * and nothing changes. Inside: the element at `repetition` (modulo the
     * sequence's length), after which `repetition` moves on by one.
     */
    method GetCategories() returns (providers: seq<Category>)
      requires Valid()
      modifies this`repetition, assistant
      ensures Valid()
      ensures providers == old(CurrentSelection())
      ensures old(categoryIteration).None? ==> repetition == old(repetition) && unchanged(assistant)
      ensures old(categoryIteration).Some? ==>
                var it := old(categoryIteration).value;
                && repetition == old(repetition) + 1
                && assistant.message == Some(IterationMessage(CategoryLabel(it, old(repetition)),
                                                              old(iterationGesture).value,
                                                              CategoryLabel(it, old(repetition) + 1)))
                && assistant.emptyMessage == Some(EmptyMessage(CategoryLabel(it, old(repetition))))
                && assistant.cyclingMode == old(assistant.cyclingMode)
                && assistant.showEmptyList == old(assistant.showEmptyList)
    {
      if categoryIteration.None? {
        return registry;
      }
      var it := categoryIteration.value;
      var iteration := repetition % |it|;
      assistant.message := Some(IterationMessage(CategoryLabel(it, repetition), iterationGesture.value,
                                                 CategoryLabel(it, repetition + 1)));
      assistant.emptyMessage := Some(EmptyMessage(CategoryLabel(it, repetition)));
      repetition := repetition + 1;
      providers := it[iteration];
    }

    /** What each consulted category computes, concatenated in category order. */
    method CollectProposals<P>(compute: Category -> seq<P>) returns (proposals: seq<P>)
      requires Valid()
      modifies this`repetition, assistant
      ensures Valid()
      ensures proposals == Collected(old(CurrentSelection()), compute)
      ensures repetition == if old(categoryIteration).None? then old(repetition) else old(repetition) + 1
      ensures old(categoryIteration).None? ==> unchanged(assistant)
      ensures old(categoryIteration).Some? ==>
                var it := old(categoryIteration).value;
                && assistant.message == Some(IterationMessage(CategoryLabel(it, old(repetition)),
                                                              old(iterationGesture).value,
                                                              CategoryLabel(it, old(repetition) + 1)))
                && assistant.emptyMessage == Some(EmptyMessage(CategoryLabel(it, old(repetition))))
                && assistant.cyclingMode == old(assistant.cyclingMode)
                && assistant.showEmptyList == old(assistant.showEmptyList)
    {
      proposals := [];
      var providers := GetCategories();
      for i := 0 to |providers|
        modifies {}
        invariant proposals == Collected(providers[..i], compute)
      {
        CollectedAppend(providers[..i], providers[i], compute);
        assert providers[..i + 1] == providers[..i] + [providers[i]];
        proposals := proposals + compute(providers[i]);
      }
      assert providers[..|providers|] == providers;
    }

    /** The hook for filtering and sorting; by default the list is returned as it is. */
    function FilterAndSortProposals<P>(proposals: seq<P>): seq<P> {
      proposals
    }

    /** The hook for filtering and sorting context information; the identity by default. */
    function FilterAndSortContextInformation<C>(contexts: seq<C>): seq<C> {
      contexts
    }

    method ComputeCompletionProposals<P>(compute: Category -> seq<P>) returns (result: seq<P>)
      requires Valid()
      modifies this`repetition, assistant
      ensures Valid()
      ensures result == Collected(old(CurrentSelection()), compute)
      ensures repetition == if old(categoryIteration).None? then old(repetition) else old(repetition) + 1
      ensures old(categoryIteration).None? ==> unchanged(assistant)
      ensures old(categoryIteration).Some? ==>
                var it := old(categoryIteration).value;
                && assistant.message == Some(IterationMessage(CategoryLabel(it, old(repetition)),
                                                              old(iterationGesture).value,
                                                              CategoryLabel(it, old(repetition) + 1)))
                && assistant.emptyMessage == Some(EmptyMessage(CategoryLabel(it, old(repetition))))
                && assistant.cyclingMode == old(assistant.cyclingMode)
                && assistant.showEmptyList == old(assistant.showEmptyList)
    {
      var proposals := CollectProposals(compute);
      result := FilterAndSortProposals(proposals);
    }

    method ComputeContextInformation<C>(compute: Category -> seq<C>) returns (result: seq<C>)
      requires Valid()
      modifies this`repetition, assistant
      ensures Valid()
      ensures result == Collected(old(CurrentSelection()), compute)
      ensures repetition == if old(categoryIteration).None? then old(repetition) else old(repetition) + 1
      ensures old(categoryIteration).None? ==> unchanged(assistant)
      ensures old(categoryIteration).Some? ==>
                var it := old(categoryIteration).value;
                && assistant.message == Some(IterationMessage(CategoryLabel(it, old(repetition)),
                                                              old(iterationGesture).value,
                                                              CategoryLabel(it, old(repetition) + 1)))
                && assistant.emptyMessage == Some(EmptyMessage(CategoryLabel(it, old(repetition))))
                && assistant.cyclingMode == old(assistant.cyclingMode)
                && assistant.showEmptyList == old(assistant.showEmptyList)
    {
      var contexts := CollectProposals(compute);
      result := FilterAndSortContextInformation(contexts);
    }
  }
}
