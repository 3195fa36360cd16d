/** Finding the skill and its schedule list in a manifest tree, and growing that list by one. */
module YamlAppend {
  import opened Options
  import opened YamlEdit

  // ----- where things are -----

  function FirstKey(ps: seq<Pair>, key: string, i: nat): (r: nat)
    requires i <= |ps|
    ensures i <= r <= |ps| && (r < |ps| ==> ps[r].key == key)
    ensures forall j :: i <= j < r ==> ps[j].key != key
    decreases |ps| - i
  {
    if i == |ps| || ps[i].key == key then i else FirstKey(ps, key, i + 1)
  }

  /** The pair of the root that holds the skills. */
  function SkillsAt(doc: Node): Result<nat> {
    if doc.kind != DocumentNode || doc.content == [] then Err(EmptyManifest)
    else if doc.content[0].kind != MappingNode then Err(RootIsNoMapping)
    else
      var ps := PairsOf(doc.content[0].content);
      var p := FirstKey(ps, "skills", 0);
      if p == |ps| then Err(NoSkillsKey)
      else if ps[p].val.kind != SequenceNode then Err(SkillsIsNoSequence)
      else Ok(p)
  }

  method FindSkillsSequence(doc: Node) returns (r: Result<nat>)
    ensures r == SkillsAt(doc)
  {
    if doc.kind != DocumentNode || |doc.content| == 0 { return Err(EmptyManifest); }
    var root := doc.content[0];
    if root.kind != MappingNode { return Err(RootIsNoMapping); }
    ghost var ps := PairsOf(root.content);
    var i := 0;
    while i < |root.content| - 1
      invariant 0 <= i <= |root.content| && i % 2 == 0
      invariant FirstKey(ps, "skills", 0) == FirstKey(ps, "skills", i / 2)
    {
      var key, val := root.content[i], root.content[i + 1];
      assert ps[i / 2] == Pair(key.value, val);
      if key.value == "skills" {
        return if val.kind != SequenceNode then Err(SkillsIsNoSequence) else Ok(i / 2);
      }
      i := i + 2;
    }
    return Err(NoSkillsKey);
  }

  /** A pair that says `key: text`. */
  predicate Says(x: Pair, key: string, text: string) { x.key == key && x.val.value == text }

  predicate HasPath(entry: Node, path: string) {
    && entry.kind == MappingNode
    && exists p :: 0 <= p < |PairsOf(entry.content)| && Says(PairsOf(entry.content)[p], "path", path)
  }

  function FirstEntry(entries: seq<Node>, path: string, i: nat): (e: nat)
    requires i <= |entries|
    ensures i <= e <= |entries| && (e < |entries| ==> HasPath(entries[e], path))
    ensures forall j :: i <= j < e ==> !HasPath(entries[j], path)
    decreases |entries| - i
  {
    if i == |entries| || HasPath(entries[i], path) then i else FirstEntry(entries, path, i + 1)
  }

  predicate IsList(x: Pair) { x.key == "schedules" && x.val.kind == SequenceNode }

  /** The last pair among the first `n` that holds a schedule list, or none. */
  function LastList(ps: seq<Pair>, n: nat): (r: Option<nat>)
    requires n <= |ps|
    ensures r.Some? ==> r.value < n && IsList(ps[r.value]) && forall j :: r.value < j < n ==> !IsList(ps[j])
    ensures r.None? ==> forall j :: 0 <= j < n ==> !IsList(ps[j])
  {
    if n == 0 then None else if IsList(ps[n - 1]) then Some(n - 1) else LastList(ps, n - 1)
  }

  function ListOf(entry: Node): (r: Option<nat>)
    ensures r.Some? ==> r.value < |PairsOf(entry.content)| && IsList(PairsOf(entry.content)[r.value])
  {
    LastList(PairsOf(entry.content), |PairsOf(entry.content)|)
  }

  /** The schedules of a skill. */
  function Schedules(entry: Node): seq<Node> {
    var j := ListOf(entry);
    if j.None? then [] else PairsOf(entry.content)[j.value].val.content
  }

  /** One of the first `n` pairs gives the path. */
  predicate SaidAmong(ps: seq<Pair>, n: nat, path: string)
    requires n <= |ps|
  {
    exists p :: 0 <= p < n && Says(ps[p], "path", path)
  }

  /** The inner loop: does the entry have the path, and where is its last list? */
  method ReadEntry(entry: Node, path: string) returns (matched: bool, list: Option<nat>)
    requires entry.kind == MappingNode
    ensures matched <==> HasPath(entry, path)
    ensures list == ListOf(entry)
  {
    ghost var ps := PairsOf(entry.content);
    assert HasPath(entry, path) <==> SaidAmong(ps, |ps|, path);
    matched, list := false, None;
    var i := 0;
    while i < |entry.content| - 1
      invariant 0 <= i <= |entry.content| && i % 2 == 0
      invariant matched <==> SaidAmong(ps, i / 2, path)
      invariant list == LastList(ps, i / 2)
    {
      var k, v := entry.content[i], entry.content[i + 1];
      assert ps[i / 2] == Pair(k.value, v);
      if k.value == "path" {
        if v.value == path { matched := true; }
      } else if k.value == "schedules" {
        if v.kind == SequenceNode { list := Some(i / 2); }
      }
      i := i + 2;
    }
  }

  /** The first entry with the path, and the last list in it. */
  method FindSkillEntry(skills: Node, path: string) returns (e: nat, list: Option<nat>)
    ensures e == FirstEntry(skills.content, path, 0)
    ensures e < |skills.content| ==> list == ListOf(skills.content[e])
  {
    e := 0;
    while e < |skills.content|
      invariant e <= |skills.content|
      invariant FirstEntry(skills.content, path, 0) == FirstEntry(skills.content, path, e)
    {
      var entry := skills.content[e];
      if entry.kind == MappingNode {
        var matched: bool;
        matched, list := ReadEntry(entry, path);
        if matched { return; }
      }
      e := e + 1;
    }
    list := None;
  }

  predicate Named(item: Node, name: string) {
    && item.kind == MappingNode
    && exists p :: 0 <= p < |PairsOf(item.content)| && Says(PairsOf(item.content)[p], "name", name)
  }

  predicate Taken(items: seq<Node>, name: string) {
    exists i :: 0 <= i < |items| && Named(items[i], name)
  }

  method HasScheduleNamed(items: seq<Node>, name: string) returns (taken: bool)
    ensures taken <==> Taken(items, name)
  {
    for n := 0 to |items|
      invariant forall i :: 0 <= i < n ==> !Named(items[i], name)
    {
      var item := items[n];
      if item.kind == MappingNode {
        ghost var ps := PairsOf(item.content);
        var i := 0;
        while i < |item.content| - 1
          invariant 0 <= i <= |item.content| && i % 2 == 0
          invariant forall p :: 0 <= p < i / 2 ==> !Says(ps[p], "name", name)
        {
          var k, v := item.content[i], item.content[i + 1];
          assert ps[i / 2] == Pair(k.value, v);
          if k.value == "name" && v.value == name { return true; }
          i := i + 2;
        }
      }
    }
    return false;
  }

  // ----- the edit -----

  function Grown(entry: Node, node: Node): Node {
    var j := ListOf(entry);
    if j.None? then
      entry.(content := entry.content + [KeyNode("schedules"), Node(SequenceNode, "!!seq", "", [node])])
    else
      var list := PairsOf(entry.content)[j.value].val;
      entry.(content := entry.content[2 * j.value + 1 := list.(content := list.content + [node])])
  }

  function SkillEntries(doc: Node): seq<Node>
    requires SkillsAt(doc).Ok?
  {
    PairsOf(doc.content[0].content)[SkillsAt(doc).value].val.content
  }

  function Edited(doc: Node, e: nat, entry: Node): Node
    requires SkillsAt(doc).Ok? && e < |SkillEntries(doc)|
  {
    var root, p := doc.content[0], SkillsAt(doc).value;
    var skills := PairsOf(root.content)[p].val;
    var root1 := root.(content := root.content[2 * p + 1 := skills.(content := skills.content[e := entry])]);
    doc.(content := doc.content[0 := root1])
  }

  predicate Found(doc: Node, path: string) {
    SkillsAt(doc).Ok? && FirstEntry(SkillEntries(doc), path, 0) < |SkillEntries(doc)|
  }

  /** The entry of the first skill with the path. */
  function Target(doc: Node, path: string): Node
    requires Found(doc, path)
  {
    SkillEntries(doc)[FirstEntry(SkillEntries(doc), path, 0)]
  }

  function Appended(doc: Node, path: string, node: Node): Node
    requires Found(doc, path)
  {
    Edited(doc, FirstEntry(SkillEntries(doc), path, 0), Grown(Target(doc, path), node))
  }

  /** The refusals, in the order they are found. */
  function Refusal(parsed: Option<Node>, path: string, sched: Option<Schedule>): Option<Error> {
    if sched.None? then Some(NilSchedule)
    else if path == "" then Some(EmptySkillPath)
    else if parsed.None? then Some(ParseError)
    else if SkillsAt(parsed.value).Err? then Some(SkillsAt(parsed.value).error)
    else if !Found(parsed.value, path) then Some(SkillNotFound)
    else if Taken(Schedules(Target(parsed.value, path)), sched.value.name) then Some(DuplicateScheduleName)
    else if Mapping(sched.value).None? then Some(MarshalError)
    else None
  }

  function Mapping(sched: Schedule): Option<Node> {
    var d := sched.marshalled;
    if d.None? || d.value.kind != DocumentNode || d.value.content == [] then None else Some(d.value.content[0])
  }

  /** AppendScheduleToSkill, from the parsed document to the one to be encoded. */
  method AppendScheduleToSkill(parsed: Option<Node>, path: string, sched: Option<Schedule>) returns (r: Result<Node>)
    ensures r.Err? <==> Refusal(parsed, path, sched).Some?
    ensures r.Err? ==> r.error == Refusal(parsed, path, sched).value
    ensures r.Ok? ==> exists node ::
              Rebuilt(Mapping(sched.value).value, node) && r.value == Appended(parsed.value, path, node)
  {
    if sched.None? { return Err(NilSchedule); }
    if path == "" { return Err(EmptySkillPath); }
    if parsed.None? { return Err(ParseError); }
    var doc := parsed.value;
    var at := FindSkillsSequence(doc);
    if at.Err? { return Err(at.error); }
    var root, p := doc.content[0], at.value;
    var skills := root.content[2 * p + 1];
    assert skills == PairsOf(root.content)[p].val;
    var e, list := FindSkillEntry(skills, path);
    if e == |skills.content| { return Err(SkillNotFound); }
    var target := skills.content[e];
    var items := if list.None? then [] else target.content[2 * list.value + 1].content;
    assert items == Schedules(target);
    var taken := HasScheduleNamed(items, sched.value.name);
    if taken { return Err(DuplicateScheduleName); }
    var mapping := Mapping(sched.value);
    if mapping.None? { return Err(MarshalError); }
    var node := ReorderAndFilter(mapping.value);
    var target1 := Splice(target, list, node);
    assert target == Target(doc, path);
    return Ok(Edited(doc, e, target1));
  }

  method Splice(target: Node, list: Option<nat>, node: Node) returns (target1: Node)
    requires list == ListOf(target)
    ensures target1 == Grown(target, node)
  {
    if list.None? {
      target1 := target.(content := target.content + [KeyNode("schedules"), Node(SequenceNode, "!!seq", "", [node])]);
    } else {
      var l := target.content[2 * list.value + 1];
      target1 := target.(content := target.content[2 * list.value + 1 := l.(content := l.content + [node])]);
    }
  }

  // ----- what the edit keeps -----

  /** A parser puts a value after every key. */
  predicate Even(n: Node) { |n.content| % 2 == 0 }

  lemma PairAfterUpdate(c: seq<Node>, p: nat, v: Node, q: nat)
    requires 2 * p + 1 < |c| && q < |c| / 2
    ensures PairsOf(c[2 * p + 1 := v])[q] == if q == p then Pair(c[2 * p].value, v) else PairsOf(c)[q]
  {
  }

  lemma PairsAfterAppend(c: seq<Node>, k: Node, v: Node)
    requires |c| % 2 == 0
    ensures PairsOf(c + [k, v]) == PairsOf(c) + [Pair(k.value, v)]
  {
  }

  lemma LastListIs(ps: seq<Pair>, n: nat, j: nat)
    requires j < n <= |ps| && IsList(ps[j]) && forall i :: j < i < n ==> !IsList(ps[i])
    ensures LastList(ps, n) == Some(j)
  {
    var r := LastList(ps, n);
    assert r.Some?;
  }

  /** The skill's list gains the node at its end; its other pairs stay, in place. */
  lemma GrownListGrows(entry: Node, node: Node)
    requires Even(entry)
    ensures Schedules(Grown(entry, node)) == Schedules(entry) + [node]
    ensures var ps, qs := PairsOf(entry.content), PairsOf(Grown(entry, node).content);
            && (ListOf(entry).None? ==> qs == ps + [Pair("schedules", Node(SequenceNode, "!!seq", "", [node]))])
            && (ListOf(entry).Some? ==> |qs| == |ps| && forall i :: 0 <= i < |ps| && i != ListOf(entry).value ==>
                  qs[i] == ps[i])
  {
    var ps, qs := PairsOf(entry.content), PairsOf(Grown(entry, node).content);
    var j := ListOf(entry);
    if j.None? {
      var list := Node(SequenceNode, "!!seq", "", [node]);
      PairsAfterAppend(entry.content, KeyNode("schedules"), list);
      LastListIs(qs, |qs|, |ps|);
    } else {
      var list := ps[j.value].val;
      var list1 := list.(content := list.content + [node]);
      forall i | 0 <= i < |ps| ensures qs[i] == if i == j.value then Pair(ps[i].key, list1) else ps[i] {
        PairAfterUpdate(entry.content, j.value, list1, i);
      }
      LastListIs(qs, |qs|, j.value);
    }
  }

  lemma GrownKeepsPath(entry: Node, node: Node, path: string)
    requires Even(entry) && HasPath(entry, path)
    ensures HasPath(Grown(entry, node), path)
  {
    GrownListGrows(entry, node);
    var ps, qs := PairsOf(entry.content), PairsOf(Grown(entry, node).content);
    var p :| 0 <= p < |ps| && Says(ps[p], "path", path);
    assert qs[p] == ps[p];
  }

  lemma FirstKeyIs(ps: seq<Pair>, key: string, i: nat, r: nat)
    requires i <= r < |ps| && ps[r].key == key && forall j :: i <= j < r ==> ps[j].key != key
    ensures FirstKey(ps, key, i) == r
  {
  }

  lemma FirstEntryIs(entries: seq<Node>, path: string, i: nat, e: nat)
    requires i <= e < |entries| && HasPath(entries[e], path) && forall j :: i <= j < e ==> !HasPath(entries[j], path)
    ensures FirstEntry(entries, path, i) == e
  {
  }

  /** Everything outside one skill entry stays. */
  lemma EditedElsewhere(doc: Node, e: nat, entry: Node)
    requires SkillsAt(doc).Ok? && e < |SkillEntries(doc)|
    ensures var out := Edited(doc, e, entry);
            && SkillsAt(out) == SkillsAt(doc)
            && SkillEntries(out) == SkillEntries(doc)[e := entry]
            && (out.kind, out.tag, out.value, out.content[1..]) == (doc.kind, doc.tag, doc.value, doc.content[1..])
            && out.content[0].kind == doc.content[0].kind && out.content[0].tag == doc.content[0].tag
            && out.content[0].value == doc.content[0].value
            && |out.content[0].content| == |doc.content[0].content|
            && forall i :: 0 <= i < |doc.content[0].content| && i != 2 * SkillsAt(doc).value + 1 ==>
                 out.content[0].content[i] == doc.content[0].content[i]
    ensures var i := 2 * SkillsAt(doc).value + 1;
            var before, after := doc.content[0].content[i], Edited(doc, e, entry).content[0].content[i];
            (after.kind, after.tag, after.value) == (before.kind, before.tag, before.value)
  {
    var out := Edited(doc, e, entry);
    var c, p := doc.content[0].content, SkillsAt(doc).value;
    var ps, qs := PairsOf(c), PairsOf(out.content[0].content);
    var skills1 := out.content[0].content[2 * p + 1];
    forall q | 0 <= q < |ps| ensures qs[q] == if q == p then Pair(ps[p].key, skills1) else ps[q] {
      PairAfterUpdate(c, p, skills1, q);
    }
    FirstKeyIs(qs, "skills", 0, p);
  }

  /** The lookup finds the grown entry where it found the old one. */
  lemma LookupAfterAppend(doc: Node, path: string, node: Node)
    requires Found(doc, path) && Even(Target(doc, path))
    ensures Found(Appended(doc, path, node), path)
    ensures Target(Appended(doc, path, node), path) == Grown(Target(doc, path), node)
    ensures Schedules(Target(Appended(doc, path, node), path)) == Schedules(Target(doc, path)) + [node]
  {
    var entries := SkillEntries(doc);
    var e := FirstEntry(entries, path, 0);
    var entry1 := Grown(entries[e], node);
    EditedElsewhere(doc, e, entry1);
    GrownKeepsPath(entries[e], node, path);
    GrownListGrows(entries[e], node);
    FirstEntryIs(entries[e := entry1], path, 0, e);
  }

  // ----- names -----

  /** A schedule marshals to a mapping without repeated keys whose name is a string scalar. */
  ghost predicate Marshals(sched: Schedule) {
    && Mapping(sched).Some?
    && var m := Mapping(sched).value;
       && m.kind == MappingNode && DistinctKeys(PairsOf(m.content))
       && Pair("name", Node(ScalarNode, "!!str", sched.name, [])) in PairsOf(m.content)
  }

  /** The appended node carries the schedule's name, unless that is empty. */
  lemma NodeIsNamed(sched: Schedule, node: Node, name: string)
    requires Marshals(sched) && Rebuilt(Mapping(sched).value, node)
    ensures Named(node, name) <==> name == sched.name && name != ""
  {
    var m := Mapping(sched).value;
    var ps, qs := PairsOf(m.content), PairsOf(node.content);
    var given := Pair("name", Node(ScalarNode, "!!str", sched.name, []));
    NormalKeepsTheNonEmpty(m, node, given);
    if Named(node, name) {
      var p :| 0 <= p < |qs| && Says(qs[p], "name", name);
      NormalKeepsTheNonEmpty(m, node, qs[p]);
      var i :| 0 <= i < |ps| && ps[i] == given;
      var j :| 0 <= j < |ps| && ps[j] == qs[p];
      assert i == j;
    }
    if name == sched.name && name != "" {
      assert given in qs;
      var p :| 0 <= p < |qs| && qs[p] == given;
      assert Says(qs[p], "name", name);
    }
  }

  ghost predicate NameApart(a: Node, b: Node) {
    forall name :: Named(a, name) ==> !Named(b, name)
  }

  /** No two schedules of a list share a name. */
  ghost predicate UniqueNames(items: seq<Node>) {
    forall i, j :: 0 <= i < j < |items| ==> NameApart(items[i], items[j])
  }

  lemma UniqueNamesStayUnique(doc: Node, path: string, sched: Schedule, node: Node)
    requires Refusal(Some(doc), path, Some(sched)).None? && Marshals(sched)
    requires Rebuilt(Mapping(sched).value, node) && Even(Target(doc, path))
    ensures Found(Appended(doc, path, node), path)
    ensures UniqueNames(Schedules(Target(Appended(doc, path, node), path)))
       <==> UniqueNames(Schedules(Target(doc, path)))
  {
    UniqueAfterAppend(doc, path, sched, node);
  }

  lemma UniqueAfterAppend(doc: Node, path: string, sched: Schedule, node: Node)
    requires Found(doc, path) && Even(Target(doc, path)) && !Taken(Schedules(Target(doc, path)), sched.name)
    requires Marshals(sched) && Rebuilt(Mapping(sched).value, node)
    ensures Found(Appended(doc, path, node), path)
    ensures UniqueNames(Schedules(Target(Appended(doc, path, node), path)))
       <==> UniqueNames(Schedules(Target(doc, path)))
  {
    LookupAfterAppend(doc, path, node);
    UniqueGrows(Schedules(Target(doc, path)), sched, node);
  }

  lemma UniqueGrows(items: seq<Node>, sched: Schedule, node: Node)
    requires Marshals(sched) && Rebuilt(Mapping(sched).value, node) && !Taken(items, sched.name)
    ensures UniqueNames(items + [node]) <==> UniqueNames(items)
  {
    var all := items + [node];
    forall i | 0 <= i < |items| ensures NameApart(items[i], node) {
      forall name | Named(items[i], name) ensures !Named(node, name) { NodeIsNamed(sched, node, name); }
    }
    if UniqueNames(all) {
      forall i, j | 0 <= i < j < |items| ensures NameApart(items[i], items[j]) {
        assert NameApart(all[i], all[j]);
      }
    }
  }

  /** After a successful append, the same name is refused as a duplicate, unless it is empty. */
  lemma SecondAppendIsADuplicate(doc: Node, path: string, sched: Schedule, node: Node, again: Schedule)
    requires Refusal(Some(doc), path, Some(sched)).None? && Marshals(sched)
    requires Rebuilt(Mapping(sched).value, node) && Even(Target(doc, path))
    requires again.name == sched.name
    ensures Refusal(Some(Appended(doc, path, node)), path, Some(again)) == Some(DuplicateScheduleName)
       <==> sched.name != ""
  {
    LookupAfterAppend(doc, path, node);
    NodeIsNamed(sched, node, sched.name);
    TakenGrows(Schedules(Target(doc, path)), node, sched.name);
    RefusedIfTaken(Appended(doc, path, node), path, again);
  }

  lemma RefusedIfTaken(doc: Node, path: string, sched: Schedule)
    requires path != "" && Found(doc, path)
    ensures Refusal(Some(doc), path, Some(sched)) == Some(DuplicateScheduleName)
       <==> Taken(Schedules(Target(doc, path)), sched.name)
  {
  }

  lemma TakenGrows(items: seq<Node>, node: Node, name: string)
    ensures Taken(items + [node], name) <==> Taken(items, name) || Named(node, name)
  {
    var all := items + [node];
    if Taken(items, name) {
      var i :| 0 <= i < |items| && Named(items[i], name);
      assert Named(all[i], name);
    }
    if Named(node, name) { assert Named(all[|items|], name); }
  }

  // ----- keys -----

  /**
   * The skill's keys stay distinct exactly when `schedules` was absent or a sequence: a
   * `schedules:` that holds anything else (nothing at all, say) is left beside a second one.
   */
  lemma KeysStayDistinctIff(entry: Node, node: Node)
    requires Even(entry) && DistinctKeys(PairsOf(entry.content))
    ensures DistinctKeys(PairsOf(Grown(entry, node).content))
       <==> forall i :: 0 <= i < |PairsOf(entry.content)| && PairsOf(entry.content)[i].key == "schedules" ==>
              PairsOf(entry.content)[i].val.kind == SequenceNode
  {
    GrownListGrows(entry, node);
    var ps, qs := PairsOf(entry.content), PairsOf(Grown(entry, node).content);
    var j := ListOf(entry);
    if j.None? {
      if i :| 0 <= i < |ps| && ps[i].key == "schedules" {
        assert !IsList(ps[i]);
        assert qs[i].key == qs[|ps|].key;
      }
    } else {
      assert qs[j.value].key == ps[j.value].key by {
        var l := ps[j.value].val;
        PairAfterUpdate(entry.content, j.value, l.(content := l.content + [node]), j.value);
      }
      assert forall i :: 0 <= i < |ps| ==> qs[i].key == ps[i].key;
    }
  }
}
