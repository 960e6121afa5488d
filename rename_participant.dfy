/**
 * A rename participant that, when a Java type is renamed, replaces the
 * type's simple name in the project's `*.special` files: one text change per
 * file, one replace edit per search match. A file that another participant
 * already changes is left alone.
 *
 * The text search is reduced to the sequence of matches it reports, and
 * "another participant already has a text change for this file" to the set
 * `changedByOthers`.
 */
module RenameParticipant {
  import opened Wrappers

  datatype File = File(path: string, name: string)

  datatype JavaType = JavaType(elementName: string, project: string)

  /** A match reported by the text search: where the old name occurs. */
  datatype Match = Match(file: File, offset: int, length: int)

  datatype ReplaceEdit = ReplaceEdit(offset: int, length: int, text: string)

  datatype TextEditGroup = TextEditGroup(name: string, edit: ReplaceEdit)

  const EDIT_GROUP_NAME := "Update type reference"
  const COMPOSITE_NAME := "My special file updates"

  /** The edit that replaces the text of a match by the new name. */
  function EditFor(m: Match, newName: string): ReplaceEdit {
    ReplaceEdit(m.offset, m.length, newName)
  }

  /**
   * The collector's reaction to one match, on the edits it holds per file: a
   * file without an entry that another participant changes is skipped;
   * otherwise the file's entry (created if need be) gets one more edit.
   */
  function Collect(grouped: map<File, seq<ReplaceEdit>>, changedByOthers: set<File>, newName: string, m: Match)
    : map<File, seq<ReplaceEdit>>
  {
    if m.file !in grouped && m.file in changedByOthers then grouped
    else grouped[m.file := (if m.file in grouped then grouped[m.file] else []) + [EditFor(m, newName)]]
  }

  /** The edits the collector holds per file after the search reported `matches`, one at a time. */
  function Grouped(matches: seq<Match>, changedByOthers: set<File>, newName: string): map<File, seq<ReplaceEdit>> {
    if matches == [] then map[]
    else Collect(Grouped(matches[..|matches| - 1], changedByOthers, newName), changedByOthers, newName,
                 matches[|matches| - 1])
  }

  /** The edits for the matches in file `f`, in the order of the matches. */
  function EditsIn(matches: seq<Match>, f: File, newName: string): seq<ReplaceEdit> {
    if matches == [] then []
    else
      var m := matches[|matches| - 1];
      EditsIn(matches[..|matches| - 1], f, newName) + (if m.file == f then [EditFor(m, newName)] else [])
  }

  ghost predicate MatchesFile(matches: seq<Match>, f: File) {
    exists i :: 0 <= i < |matches| && matches[i].file == f
  }

  lemma {:induction false} NoMatchNoEdits(matches: seq<Match>, f: File, newName: string)
    requires !MatchesFile(matches, f)
    ensures EditsIn(matches, f, newName) == []
  {
    if matches != [] {
      var init := matches[..|matches| - 1];
      assert forall i :: 0 <= i < |init| ==> init[i] == matches[i];
      NoMatchNoEdits(init, f, newName);
    }
  }

  /**
   * What the collector ends with: an entry for exactly the files that have a
   * match and that no other participant changes, holding one replace edit
   * per match in that file, in match order.
   */
  lemma {:induction false} GroupedSpec(matches: seq<Match>, changedByOthers: set<File>, newName: string)
    ensures forall f :: f in Grouped(matches, changedByOthers, newName) <==>
                        f !in changedByOthers && MatchesFile(matches, f)
    ensures forall f :: f in Grouped(matches, changedByOthers, newName) ==>
                        Grouped(matches, changedByOthers, newName)[f] == EditsIn(matches, f, newName)
  {
    if matches != [] {
      var init := matches[..|matches| - 1];
      var m := matches[|matches| - 1];
      var grouped := Grouped(init, changedByOthers, newName);
      GroupedSpec(init, changedByOthers, newName);
      forall f ensures MatchesFile(matches, f) <==> MatchesFile(init, f) || m.file == f {
        if MatchesFile(matches, f) && m.file != f {
          var i :| 0 <= i < |matches| && matches[i].file == f;
          assert init[i].file == f;
        }
        if MatchesFile(init, f) {
          var i :| 0 <= i < |init| && init[i].file == f;
          assert matches[i].file == f;
        }
      }
      if !(m.file !in grouped && m.file in changedByOthers) && m.file !in grouped {
        NoMatchNoEdits(init, m.file, newName);
      }
    }
  }

  /** Nothing is collected iff another participant changes every matched file. */
  lemma NothingCollected(matches: seq<Match>, changedByOthers: set<File>, newName: string)
    ensures Grouped(matches, changedByOthers, newName) == map[] <==>
            forall i :: 0 <= i < |matches| ==> matches[i].file in changedByOthers
  {
    GroupedSpec(matches, changedByOthers, newName);
    var grouped := Grouped(matches, changedByOthers, newName);
    if grouped == map[] {
      forall i | 0 <= i < |matches| ensures matches[i].file in changedByOthers {
        assert matches[i].file !in grouped;
      }
    } else {
      var f :| f in grouped;
    }
  }

  /** The edit groups of a change: one "Update type reference" group per edit, holding that edit. */
  predicate OneGroupPerEdit(groups: seq<TextEditGroup>, edits: seq<ReplaceEdit>) {
    |groups| == |edits| && forall i :: 0 <= i < |edits| ==> groups[i] == TextEditGroup(EDIT_GROUP_NAME, edits[i])
  }

  /** A text change for one file; its edits are the children of its root edit. */
  class TextFileChange {
    const name: string
    const file: File
    var edits: seq<ReplaceEdit>
    var groups: seq<TextEditGroup>

    constructor (name: string, file: File)
      ensures this.name == name && this.file == file && edits == [] && groups == []
    {
      this.name := name;
      this.file := file;
      edits := [];
      groups := [];
    }

    /** The change of file `f`, with one "Update type reference" group per edit. */
    predicate ServesFile(f: File)
      reads this
    {
      file == f && name == f.name && OneGroupPerEdit(groups, edits)
    }

    method AddEdit(edit: ReplaceEdit)
      modifies this`edits
      ensures edits == old(edits) + [edit]
    {
      edits := edits + [edit];
    }

    method AddTextEditGroup(group: TextEditGroup)
      modifies this`groups
      ensures groups == old(groups) + [group]
    {
      groups := groups + [group];
    }
  }

  class CompositeChange {
    const name: string
    var children: seq<TextFileChange>

    constructor (name: string)
      ensures this.name == name && children == []
    {
      this.name := name;
      children := [];
    }

    method Add(change: TextFileChange)
      modifies this`children
      ensures children == old(children) + [change]
    {
      children := children + [change];
    }
  }

  /** A refactoring status; it is OK while it holds no entry. */
  class RefactoringStatus {
    var entries: seq<string>

    constructor ()
      ensures entries == []
    {
      entries := [];
    }
  }

  /** The search requestor of createChange, with the map of changes it fills. */
  class SearchCollector {
    var changes: map<File, TextFileChange>
    const newName: string
    const changedByOthers: set<File>
    /** The edits held per file. */
    ghost var collected: map<File, seq<ReplaceEdit>>
    /** The change objects held in `changes`. */
    ghost var Repr: set<TextFileChange>

    /**
     * Every change is the one of its own file (so no change object serves two
     * files), carries one edit group per edit, and holds the edits recorded
     * for its file in `collected`.
     */
    ghost predicate Valid()
      reads this, Repr
    {
      && changes.Keys == collected.Keys
      && forall f :: f in changes ==> changes[f] in Repr && changes[f].ServesFile(f) && changes[f].edits == collected[f]
    }

    constructor (newName: string, changedByOthers: set<File>)
      ensures Valid() && changes == map[] && collected == map[] && Repr == {}
      ensures this.newName == newName && this.changedByOthers == changedByOthers
    {
      changes := map[];
      collected := map[];
      Repr := {};
      this.newName := newName;
      this.changedByOthers := changedByOthers;
    }

    /** The change of `file`: the one in the map, or a new, empty one put there. */
    method ChangeFor(file: File) returns (change: TextFileChange)
      requires Valid()
      modifies this`changes, this`collected, this`Repr
      ensures Valid() && file in changes && changes[file] == change
      ensures file in old(changes) ==> changes == old(changes) && collected == old(collected) && Repr == old(Repr)
      ensures file !in old(changes) ==>
                && fresh(change) && changes == old(changes)[file := change]
                && collected == old(collected)[file := []] && Repr == old(Repr) + {change}
    {
      if file in changes {
        change := changes[file];
      } else {
        change := new TextFileChange(file.name, file);
        changes := changes[file := change];
        collected := collected[file := []];
        Repr := Repr + {change};
      }
    }

    /** Adds the replace edit of `m`, with its edit group, to the change of its file. */
    method AddEditFor(m: Match)
      requires Valid() && m.file in changes
      modifies this`collected, changes[m.file]
      ensures Valid()
      ensures collected == old(collected)[m.file := old(collected)[m.file] + [EditFor(m, newName)]]
    {
      var change := changes[m.file];
      ghost var previous := change.edits;
      var edit := ReplaceEdit(m.offset, m.length, newName);
      change.AddEdit(edit);
      change.AddTextEditGroup(TextEditGroup(EDIT_GROUP_NAME, edit));
      collected := collected[m.file := previous + [edit]];
      forall f | f in changes
        ensures changes[f] in Repr && changes[f].ServesFile(f) && changes[f].edits == collected[f]
      {
        if f != m.file {
          assert changes[f].file == f;
        }
      }
    }

    /**
     * Takes one match. A file with no change yet that another participant
     * changes is declined (false) and nothing changes. Otherwise the file's
     * change, created on its first accepted match and reused afterwards
     * without asking about other participants again, gets one replace edit
     * and one edit group, and the match is accepted (true).
     */
    method AcceptPatternMatch(m: Match) returns (accepted: bool)
      requires Valid()
      modifies this, Repr
      ensures Valid()
      ensures accepted == (m.file in old(changes) || m.file !in changedByOthers)
      ensures collected == Collect(old(collected), changedByOthers, newName, m)
      ensures !accepted || m.file in old(changes) ==> changes == old(changes)
      ensures accepted && m.file !in old(changes) ==>
                changes == old(changes)[m.file := changes[m.file]] && fresh(changes[m.file])
      ensures fresh(Repr - old(Repr))
    {
      if m.file !in changes && m.file in changedByOthers {
        return false;
      }
      ghost var before := collected;
      var change := ChangeFor(m.file);
      AddEditFor(m);
      assert collected == before[m.file := (if m.file in before then before[m.file] else []) + [EditFor(m, newName)]];
      return true;
    }
  }

  /**
   * The text search engine feeding `matches` to the collector in order. Once
   * the collector declines a match, the engine reports no further match in
   * that file.
   */
  method Search(collector: SearchCollector, matches: seq<Match>)
    requires collector.Valid() && collector.changes == map[] && collector.Repr == {}
    modifies collector
    ensures collector.Valid()
    ensures collector.collected == Grouped(matches, collector.changedByOthers, collector.newName)
    ensures fresh(collector.Repr)
  {
    var declined: set<File> := {};
    for i := 0 to |matches|
      invariant collector.Valid()
      invariant collector.collected == Grouped(matches[..i], collector.changedByOthers, collector.newName)
      invariant fresh(collector.Repr)
      invariant forall f :: f in declined ==> f in collector.changedByOthers && f !in collector.changes
    {
      var m := matches[i];
      assert matches[..i + 1][..i] == matches[..i];
      if m.file !in declined {
        var accepted := collector.AcceptPatternMatch(m);
        if !accepted {
          declined := declined + {m.file};
        }
      }
    }
    assert matches[..|matches|] == matches;
  }

  /**
   * Adds every change of `changes` to the empty `composite`, each once, in
   * the map's (unspecified) iteration order.
   */
  method AddAll(composite: CompositeChange, changes: map<File, TextFileChange>)
    requires composite.children == []
    requires forall f :: f in changes ==> changes[f].file == f
    modifies composite
    ensures |composite.children| == |changes|
    ensures forall i :: 0 <= i < |composite.children| ==>
              composite.children[i].file in changes && composite.children[i] == changes[composite.children[i].file]
    ensures forall i, j :: 0 <= i < j < |composite.children| ==> composite.children[i].file != composite.children[j].file
    ensures forall f :: f in changes ==> exists i :: 0 <= i < |composite.children| && composite.children[i].file == f
  {
    var remaining := changes.Keys;
    ghost var order: seq<File> := [];
    while remaining != {}
      invariant remaining <= changes.Keys && |remaining| + |order| == |changes.Keys|
      invariant forall f :: f in changes && f !in remaining ==> f in order
      invariant |composite.children| == |order|
      invariant forall i :: 0 <= i < |order| ==>
                  order[i] in changes && order[i] !in remaining && composite.children[i] == changes[order[i]]
      invariant forall i, j :: 0 <= i < j < |order| ==> order[i] != order[j]
      decreases |remaining|
    {
      var f :| f in remaining;
      composite.Add(changes[f]);
      remaining := remaining - {f};
      order := order + [f];
    }
    assert forall i :: 0 <= i < |order| ==> composite.children[i].file == order[i];
    forall f | f in changes
      ensures exists i :: 0 <= i < |composite.children| && composite.children[i].file == f
    {
      var i :| 0 <= i < |order| && order[i] == f;
      assert composite.children[i].file == f;
    }
  }

  class MyRenameTypeParticipant {
    var renamedType: Option<JavaType>

    constructor ()
      ensures renamedType == None
    {
      renamedType := None;
    }

    /** Remembers the renamed type; always succeeds. */
    method Initialize(element: JavaType) returns (ok: bool)
      modifies this`renamedType
      ensures renamedType == Some(element) && ok
    {
      renamedType := Some(element);
      return true;
    }

    /** Always a new status without entries: the participant has no conditions. */
    method CheckConditions() returns (status: RefactoringStatus)
      ensures fresh(status) && status.entries == []
    {
      status := new RefactoringStatus();
    }

    /**
     * Runs the search over the matches it reports and gathers the per-file
     * changes into one composite change; null when nothing was collected.
     * Once the collector declines a match, the search reports no further
     * match in that file.
     */
    method CreateChange(newName: string, matches: seq<Match>, changedByOthers: set<File>)
      returns (result: CompositeChange?)
      requires renamedType.Some?
      ensures var grouped := Grouped(matches, changedByOthers, newName);
              (result == null <==> grouped == map[]) &&
              (result != null ==>
                 && fresh(result) && result.name == COMPOSITE_NAME
                 && |result.children| == |grouped|
                 && (forall i, j :: 0 <= i < j < |result.children| ==>
                       result.children[i].file != result.children[j].file)
                 && (forall i :: 0 <= i < |result.children| ==>
                       && fresh(result.children[i])
                       && result.children[i].file in grouped
                       && result.children[i].name == result.children[i].file.name
                       && result.children[i].edits == grouped[result.children[i].file]
                       && result.children[i].ServesFile(result.children[i].file))
                 && (forall f :: f in grouped ==>
                       exists i :: 0 <= i < |result.children| && result.children[i].file == f))
    {
      var collector := new SearchCollector(newName, changedByOthers);
      Search(collector, matches);
      var changes := collector.changes;
      ghost var grouped := Grouped(matches, changedByOthers, newName);
      if changes == map[] {
        assert grouped.Keys == {};
        return null;
      }
      forall f | f in changes
        ensures changes[f].file == f && changes[f].name == f.name && changes[f].edits == grouped[f]
        ensures fresh(changes[f])
      {
        assert changes[f] in collector.Repr;
      }
      result := new CompositeChange(COMPOSITE_NAME);
      AddAll(result, changes);
    }
  }
}
