/**
 * Extraction of a workflow summary from one parsed XAML document
 * (app/parser.py). The XML parser and the directory walk are outside the
 * model: a document arrives as an already parsed element tree, together with
 * its path relative to the project directory.
 */
module Parser {
  import opened Wrappers
  import opened Text
  import opened Sequences
  import Paths

  /** Local tag names whose elements are reported as key activities. */
  const KeyActivityNames: set<string> :=
    {"TypeInto", "Click", "If", "ForEach", "Assign", "While", "DoWhile", "Sequence"}

  /** Local tag name of the element that calls another workflow file. */
  const InvokeTag: string := "InvokeWorkflowFile"

  /** An XML element as ElementTree presents it: a possibly `{namespace}`-qualified tag, attributes and child elements. */
  datatype Element = Element(tag: string, attrib: map<string, string>, children: seq<Element>)

  /** The summary of one workflow file. */
  datatype WorkflowData = WorkflowData(
    path: string,
    displayName: string,
    invokedWorkflows: seq<string>,
    keyActivities: seq<string>)

  /** A file found under the project directory: its relative path and its parsed root element, or None when it is not well-formed XML. */
  datatype SourceFile = SourceFile(relativePath: string, document: Option<Element>)

  /** The tag without its `{namespace}` prefix: everything after the first `}`, if there is one. */
  function LocalName(tag: string): string
  {
    match IndexOf(tag, '}')
    case Some(i) => tag[i + 1..]
    case None => tag
  }

  /**
   * The local name is a suffix of the tag: the whole tag when it has no `}`,
   * otherwise exactly the text after its first `}`.
   */
  lemma LocalNameIsSuffix(tag: string)
    ensures var r := LocalName(tag);
      |r| <= |tag| && r == tag[|tag| - |r|..]
      && ('}' !in tag ==> r == tag)
      && ('}' in tag ==> |r| < |tag| && tag[|tag| - |r| - 1] == '}' && '}' !in tag[..|tag| - |r| - 1])
  {
  }

  /** The attribute is present and not the empty string (a truthy `element.get(name)`). */
  predicate HasValue(e: Element, name: string)
  {
    name in e.attrib && e.attrib[name] != ""
  }

  /** `e.get(name)`: the attribute value, or None when it is absent. */
  function Get(e: Element, name: string): Option<string>
  {
    if name in e.attrib then Some(e.attrib[name]) else None
  }

  /** Python truthiness of an optional string: present and non-empty. */
  predicate Truthy(v: Option<string>)
  {
    v.Some? && v.value != ""
  }

  /** Python's `a or b` on optional strings: `a` when it is truthy, else `b`. */
  function Or(a: Option<string>, b: Option<string>): Option<string>
  {
    if Truthy(a) then a else b
  }

  /** `element.get("DisplayName") or fallback`: a missing or empty DisplayName falls back. */
  function DisplayNameOr(e: Element, fallback: string): (r: string)
    ensures HasValue(e, "DisplayName") ==> r == e.attrib["DisplayName"]
    ensures !HasValue(e, "DisplayName") ==> r == fallback
  {
    var d := Get(e, "DisplayName");
    if Truthy(d) then d.value else fallback
  }

  /** `e.get("WorkflowFileName") or e.get("WorkflowFile") or e.get("DisplayName")`. */
  function Target(e: Element): Option<string>
  {
    Or(Or(Get(e, "WorkflowFileName"), Get(e, "WorkflowFile")), Get(e, "DisplayName"))
  }

  /**
   * The call target is truthy exactly when one of WorkflowFileName,
   * WorkflowFile and DisplayName is set and non-empty, and it is then the
   * first of them in that order.
   */
  lemma TargetPriority(e: Element)
    ensures Truthy(Target(e)) <==> HasValue(e, "WorkflowFileName") || HasValue(e, "WorkflowFile") || HasValue(e, "DisplayName")
    ensures HasValue(e, "WorkflowFileName") ==> Target(e).value == e.attrib["WorkflowFileName"]
    ensures (!HasValue(e, "WorkflowFileName") && HasValue(e, "WorkflowFile"))
      ==> Target(e).value == e.attrib["WorkflowFile"]
    ensures (!HasValue(e, "WorkflowFileName") && !HasValue(e, "WorkflowFile") && HasValue(e, "DisplayName"))
      ==> Target(e).value == e.attrib["DisplayName"]
  {
  }

  predicate IsKeyActivity(e: Element)
  {
    LocalName(e.tag) in KeyActivityNames
  }

  predicate IsInvocation(e: Element)
  {
    LocalName(e.tag) == InvokeTag
  }

  /** The label a key activity is reported under. */
  function Label(e: Element): string
  {
    DisplayNameOr(e, LocalName(e.tag))
  }

  /** What `_collect_key_activities` appends for `e` and its descendants. */
  function KeyActivities(e: Element): seq<string>
  {
    KeyActivityHere(e) + KeyActivitiesOf(e.children)
  }

  /** What `e` itself contributes to the key activities: its label, when it is a key activity. */
  function KeyActivityHere(e: Element): seq<string>
  {
    if IsKeyActivity(e) then [Label(e)] else []
  }

  function KeyActivitiesOf(children: seq<Element>): seq<string>
  {
    if children == [] then [] else KeyActivities(children[0]) + KeyActivitiesOf(children[1..])
  }

  /** What `_find_invoked_workflows` appends for `e` and its descendants. */
  function InvokedWorkflows(e: Element): seq<string>
  {
    InvokedHere(e) + InvokedWorkflowsOf(e.children)
  }

  /** What `e` itself contributes to the invoked workflows: its target, when it is an invocation that has one. */
  function InvokedHere(e: Element): seq<string>
  {
    if IsInvocation(e) && Truthy(Target(e)) then [Target(e).value] else []
  }

  function InvokedWorkflowsOf(children: seq<Element>): seq<string>
  {
    if children == [] then [] else InvokedWorkflows(children[0]) + InvokedWorkflowsOf(children[1..])
  }

  /** Document order: the element, then the pre-order of each child in turn (ElementTree's `iter()`). */
  function Preorder(e: Element): (r: seq<Element>)
    ensures |r| >= 1 && r[0] == e
  {
    [e] + PreorderOf(e.children)
  }

  function PreorderOf(children: seq<Element>): seq<Element>
  {
    if children == [] then [] else Preorder(children[0]) + PreorderOf(children[1..])
  }

  /**
   * The key activities are the labels of the key-activity elements, one per
   * such element and none for any other, in document order.
   */
  lemma {:induction false} KeyActivitiesInDocumentOrder(e: Element)
    ensures KeyActivities(e) == Map(Label, Filter(IsKeyActivity, Preorder(e)))
    decreases e, 1
  {
    KeyActivitiesOfInDocumentOrder(e.children);
    FilterAppend(IsKeyActivity, [e], PreorderOf(e.children));
    MapAppend(Label, Filter(IsKeyActivity, [e]), Filter(IsKeyActivity, PreorderOf(e.children)));
  }

  lemma {:induction false} KeyActivitiesOfInDocumentOrder(children: seq<Element>)
    ensures KeyActivitiesOf(children) == Map(Label, Filter(IsKeyActivity, PreorderOf(children)))
    decreases children, 0
  {
    if children != [] {
      KeyActivitiesInDocumentOrder(children[0]);
      KeyActivitiesOfInDocumentOrder(children[1..]);
      FilterAppend(IsKeyActivity, Preorder(children[0]), PreorderOf(children[1..]));
      MapAppend(Label, Filter(IsKeyActivity, Preorder(children[0])), Filter(IsKeyActivity, PreorderOf(children[1..])));
    }
  }

  /** The invocation names a workflow to call. */
  predicate HasTarget(e: Element)
  {
    Truthy(Target(e))
  }

  /** The called workflow of an element with a target. */
  function CallTarget(e: Element): string
  {
    var t := Target(e);
    if t.Some? then t.value else ""
  }

  /**
   * The invoked workflows are the targets of the invocation elements that
   * have one, in document order, repeats kept; an invocation without a target
   * contributes nothing.
   */
  lemma {:induction false} InvokedWorkflowsInDocumentOrder(e: Element)
    ensures InvokedWorkflows(e) == Map(CallTarget, Filter(HasTarget, Filter(IsInvocation, Preorder(e))))
    decreases e, 1
  {
    InvokedWorkflowsOfInDocumentOrder(e.children);
    var own := Filter(IsInvocation, [e]);
    var rest := Filter(IsInvocation, PreorderOf(e.children));
    FilterAppend(IsInvocation, [e], PreorderOf(e.children));
    FilterAppend(HasTarget, own, rest);
    MapAppend(CallTarget, Filter(HasTarget, own), Filter(HasTarget, rest));
  }

  lemma {:induction false} InvokedWorkflowsOfInDocumentOrder(children: seq<Element>)
    ensures InvokedWorkflowsOf(children) == Map(CallTarget, Filter(HasTarget, Filter(IsInvocation, PreorderOf(children))))
    decreases children, 0
  {
    if children != [] {
      InvokedWorkflowsInDocumentOrder(children[0]);
      InvokedWorkflowsOfInDocumentOrder(children[1..]);
      var first := Filter(IsInvocation, Preorder(children[0]));
      var rest := Filter(IsInvocation, PreorderOf(children[1..]));
      FilterAppend(IsInvocation, Preorder(children[0]), PreorderOf(children[1..]));
      FilterAppend(HasTarget, first, rest);
      MapAppend(CallTarget, Filter(HasTarget, first), Filter(HasTarget, rest));
    }
  }

  /** There are never more invocation targets than invocation elements. */
  lemma InvocationCountBound(e: Element)
    ensures |InvokedWorkflows(e)| <= |Filter(IsInvocation, Preorder(e))|
  {
    InvokedWorkflowsInDocumentOrder(e);
  }

  /** A list owned by the caller, which the collectors append to in place. */
  class StringList {
    var items: seq<string>

    constructor ()
      ensures items == []
    {
      items := [];
    }

    method Append(s: string)
      modifies this
      ensures items == old(items) + [s]
    {
      items := items + [s];
    }
  }

  lemma {:induction false} KeyActivitiesOfAppend(a: seq<Element>, b: seq<Element>)
    ensures KeyActivitiesOf(a + b) == KeyActivitiesOf(a) + KeyActivitiesOf(b)
  {
    if a == [] {
      assert a + b == b;
    } else {
      assert (a + b)[1..] == a[1..] + b;
      KeyActivitiesOfAppend(a[1..], b);
    }
  }

  lemma {:induction false} InvokedWorkflowsOfAppend(a: seq<Element>, b: seq<Element>)
    ensures InvokedWorkflowsOf(a + b) == InvokedWorkflowsOf(a) + InvokedWorkflowsOf(b)
  {
    if a == [] {
      assert a + b == b;
    } else {
      assert (a + b)[1..] == a[1..] + b;
      InvokedWorkflowsOfAppend(a[1..], b);
    }
  }

  /** One loop step of a collector: the next child's contribution extends the prefix collected so far. */
  lemma KeyActivitiesStep(prefix: seq<string>, children: seq<Element>, i: nat)
    requires i < |children|
    ensures prefix + KeyActivitiesOf(children[..i]) + KeyActivities(children[i]) == prefix + KeyActivitiesOf(children[..i + 1])
  {
    PrefixExtend(children, i);
    KeyActivitiesOfAppend(children[..i], [children[i]]);
    assert KeyActivitiesOf([children[i]]) == KeyActivities(children[i]) + KeyActivitiesOf([]);
  }

  lemma InvokedWorkflowsStep(prefix: seq<string>, children: seq<Element>, i: nat)
    requires i < |children|
    ensures prefix + InvokedWorkflowsOf(children[..i]) + InvokedWorkflows(children[i]) == prefix + InvokedWorkflowsOf(children[..i + 1])
  {
    PrefixExtend(children, i);
    InvokedWorkflowsOfAppend(children[..i], [children[i]]);
    assert InvokedWorkflowsOf([children[i]]) == InvokedWorkflows(children[i]) + InvokedWorkflowsOf([]);
  }

  /** The per-element step of `_collect_key_activities`: a key activity appends its label. */
  method AppendKeyActivity(element: Element, activities: StringList)
    modifies activities
    ensures activities.items == old(activities.items) + KeyActivityHere(element)
  {
    var name := LocalName(element.tag);
    if name in KeyActivityNames {
      activities.Append(DisplayNameOr(element, name));
    }
  }

  /** `_collect_key_activities`: appends the labels of the key activities at and below `element`. */
  method CollectKeyActivities(element: Element, activities: StringList)
    modifies activities
    ensures activities.items == old(activities.items) + KeyActivities(element)
    decreases element
  {
    AppendKeyActivity(element, activities);
    ghost var prefix := activities.items;
    var children := element.children;
    var i := 0;
    while i < |children|
      invariant 0 <= i <= |children|
      invariant activities.items == prefix + KeyActivitiesOf(children[..i])
    {
      KeyActivitiesStep(prefix, children, i);
      CollectKeyActivities(children[i], activities);
      i := i + 1;
    }
    assert children[..i] == children;
    ConcatAssociative(old(activities.items), KeyActivityHere(element), KeyActivitiesOf(element.children));
  }

  /** The per-element step of `_find_invoked_workflows`: an invocation with a target appends it. */
  method AppendTarget(element: Element, workflows: StringList)
    modifies workflows
    ensures workflows.items == old(workflows.items) + InvokedHere(element)
  {
    var name := LocalName(element.tag);
    if name == InvokeTag {
      var target := Or(Or(Get(element, "WorkflowFileName"), Get(element, "WorkflowFile")), Get(element, "DisplayName"));
      if Truthy(target) {
        workflows.Append(target.value);
      }
    }
  }

  /** `_find_invoked_workflows`: appends the call targets of the invocations at and below `element`. */
  method FindInvokedWorkflows(element: Element, workflows: StringList)
    modifies workflows
    ensures workflows.items == old(workflows.items) + InvokedWorkflows(element)
    decreases element
  {
    AppendTarget(element, workflows);
    ghost var prefix := workflows.items;
    var children := element.children;
    var i := 0;
    while i < |children|
      invariant 0 <= i <= |children|
      invariant workflows.items == prefix + InvokedWorkflowsOf(children[..i])
    {
      InvokedWorkflowsStep(prefix, children, i);
      FindInvokedWorkflows(children[i], workflows);
      i := i + 1;
    }
    assert children[..i] == children;
    ConcatAssociative(old(workflows.items), InvokedHere(element), InvokedWorkflowsOf(element.children));
  }

  /** The display name a workflow gets: its root's DisplayName, or else the file stem of its path. */
  function DisplayNameFor(root: Element, relativePath: string): string
  {
    DisplayNameOr(root, Paths.Stem(Paths.Name(relativePath)))
  }

  /** The summary `parse_workflow` builds for a file that parsed. */
  function Summary(file: SourceFile): WorkflowData
    requires file.document.Some?
  {
    var root := file.document.value;
    WorkflowData(file.relativePath, DisplayNameFor(root, file.relativePath), InvokedWorkflows(root), KeyActivities(root))
  }

  /** `parse_workflow`, given the parsed root element and the path relative to the project directory. */
  method ParseWorkflow(root: Element, relativePath: string) returns (data: WorkflowData)
    ensures data.path == relativePath
    ensures HasValue(root, "DisplayName") ==> data.displayName == root.attrib["DisplayName"]
    ensures !HasValue(root, "DisplayName") ==> data.displayName == Paths.Stem(Paths.Name(relativePath))
    ensures data.invokedWorkflows == InvokedWorkflows(root)
    ensures data.keyActivities == KeyActivities(root)
  {
    var invoked := new StringList();
    var activities := new StringList();
    FindInvokedWorkflows(root, invoked);
    CollectKeyActivities(root, activities);
    var displayName := DisplayNameFor(root, relativePath);
    data := WorkflowData(relativePath, displayName, invoked.items, activities.items);
  }

  /**
   * The files still to visit, in walk order, added to the summaries built so
   * far: a later file with the same relative path overwrites an earlier one,
   * and the first file that does not parse aborts with its path.
   */
  function ParseFrom(files: seq<SourceFile>, acc: map<string, WorkflowData>): Result<map<string, WorkflowData>, string>
  {
    if files == [] then Success(acc)
    else if files[0].document.None? then Failure(files[0].relativePath)
    else ParseFrom(files[1..], acc[files[0].relativePath := Summary(files[0])])
  }

  /** The set of relative paths of `files`. */
  function PathsOf(files: seq<SourceFile>): set<string>
  {
    set f | f in files :: f.relativePath
  }

  /** No file after position `i` has the same relative path. */
  predicate LastWithPath(files: seq<SourceFile>, i: nat)
    requires i < |files|
  {
    forall j :: i < j < |files| ==> files[j].relativePath != files[i].relativePath
  }

  /** The walk fails exactly when some file does not parse, and then with the path of the first such file. */
  lemma {:induction false} ParseFromFailure(files: seq<SourceFile>, acc: map<string, WorkflowData>)
    ensures ParseFrom(files, acc).Failure? <==> exists i :: 0 <= i < |files| && files[i].document.None?
    ensures ParseFrom(files, acc).Failure? ==>
              exists i :: 0 <= i < |files| && files[i].document.None?
                && ParseFrom(files, acc).error == files[i].relativePath
                && forall j :: 0 <= j < i ==> files[j].document.Some?
  {
    if files != [] {
      if files[0].document.None? {
        assert files[0].document.None?;
      } else {
        var rest := files[1..];
        ParseFromFailure(rest, acc[files[0].relativePath := Summary(files[0])]);
        if exists i :: 0 <= i < |files| && files[i].document.None? {
          var i :| 0 <= i < |files| && files[i].document.None?;
          assert rest[i - 1] == files[i];
        }
        if ParseFrom(files, acc).Failure? {
          var i :| 0 <= i < |rest| && rest[i].document.None?
                   && ParseFrom(files, acc).error == rest[i].relativePath
                   && forall j :: 0 <= j < i ==> rest[j].document.Some?;
          assert files[i + 1] == rest[i];
          forall j | 0 <= j < i + 1
            ensures files[j].document.Some?
          {
            if j > 0 {
              assert files[j] == rest[j - 1];
            }
          }
        }
      }
    }
  }

  /** A successful walk keys its summaries by exactly the paths seen so far and those of the files. */
  lemma {:induction false} ParseFromKeys(files: seq<SourceFile>, acc: map<string, WorkflowData>)
    ensures ParseFrom(files, acc).Success? ==> ParseFrom(files, acc).value.Keys == acc.Keys + PathsOf(files)
  {
    if files != [] && files[0].document.Some? {
      var rest := files[1..];
      ParseFromKeys(rest, acc[files[0].relativePath := Summary(files[0])]);
      assert files == [files[0]] + rest;
      assert PathsOf(files) == {files[0].relativePath} + PathsOf(rest);
    }
  }

  /** Every summary is filed under its own path. */
  lemma {:induction false} ParseFromKeyedByPath(files: seq<SourceFile>, acc: map<string, WorkflowData>)
    requires forall k :: k in acc ==> acc[k].path == k
    ensures ParseFrom(files, acc).Success? ==>
              forall k :: k in ParseFrom(files, acc).value ==> ParseFrom(files, acc).value[k].path == k
  {
    if files != [] && files[0].document.Some? {
      ParseFromKeyedByPath(files[1..], acc[files[0].relativePath := Summary(files[0])]);
    }
  }

  /** The summary filed under a path is that of the last file with that path. */
  lemma {:induction false} ParseFromLastWins(files: seq<SourceFile>, acc: map<string, WorkflowData>, i: nat)
    requires i < |files| && LastWithPath(files, i)
    ensures ParseFrom(files, acc).Success? ==>
              files[i].document.Some?
              && files[i].relativePath in ParseFrom(files, acc).value
              && ParseFrom(files, acc).value[files[i].relativePath] == Summary(files[i])
  {
    if files[0].document.Some? {
      var acc' := acc[files[0].relativePath := Summary(files[0])];
      if i == 0 {
        LastWithPathFirst(files);
        ParseFromKeeps(files[1..], acc', files[0].relativePath);
      } else {
        LastWithPathRest(files, i);
        ParseFromLastWins(files[1..], acc', i - 1);
      }
    }
  }

  lemma LastWithPathFirst(files: seq<SourceFile>)
    requires |files| > 0 && LastWithPath(files, 0)
    ensures forall f :: f in files[1..] ==> f.relativePath != files[0].relativePath
  {
    forall f | f in files[1..]
      ensures f.relativePath != files[0].relativePath
    {
      var j :| 0 <= j < |files[1..]| && files[1..][j] == f;
      assert files[j + 1] == f;
    }
  }

  lemma LastWithPathRest(files: seq<SourceFile>, i: nat)
    requires 0 < i < |files| && LastWithPath(files, i)
    ensures LastWithPath(files[1..], i - 1)
  {
    var rest := files[1..];
    forall j | i - 1 < j < |rest|
      ensures rest[j].relativePath != rest[i - 1].relativePath
    {
      assert rest[j] == files[j + 1];
    }
  }

  /** A path none of the remaining files has keeps the summary it already has. */
  lemma {:induction false} ParseFromKeeps(files: seq<SourceFile>, acc: map<string, WorkflowData>, path: string)
    requires path in acc && forall f :: f in files ==> f.relativePath != path
    ensures ParseFrom(files, acc).Success? ==>
              path in ParseFrom(files, acc).value && ParseFrom(files, acc).value[path] == acc[path]
  {
    if files != [] && files[0].document.Some? {
      assert files[0] in files;
      var rest := files[1..];
      forall f | f in rest
        ensures f.relativePath != path
      {
        assert f in files;
      }
      ParseFromKeeps(rest, acc[files[0].relativePath := Summary(files[0])], path);
    }
  }

  /**
   * `parse_project`, given the files in the order the directory walk yields
   * them: a summary per file keyed by its relative path, or the failure of the
   * first file that does not parse, which aborts the whole project.
   */
  method ParseProject(files: seq<SourceFile>) returns (result: Result<map<string, WorkflowData>, string>)
    ensures result == ParseFrom(files, map[])
  {
    var workflows: map<string, WorkflowData> := map[];
    var i := 0;
    while i < |files|
      invariant 0 <= i <= |files|
      invariant ParseFrom(files[i..], workflows) == ParseFrom(files, map[])
    {
      ParseFromNext(files, i, workflows);
      var file := files[i];
      if file.document.None? {
        return Failure(file.relativePath);
      }
      var data := ParseWorkflow(file.document.value, file.relativePath);
      SummaryFields(file, data);
      workflows := workflows[file.relativePath := data];
      i := i + 1;
    }
    result := Success(workflows);
  }

  /** One step of the walk: the next file either aborts it or adds its summary. */
  lemma ParseFromNext(files: seq<SourceFile>, i: nat, acc: map<string, WorkflowData>)
    requires i < |files|
    ensures files[i].document.None? ==> ParseFrom(files[i..], acc) == Failure(files[i].relativePath)
    ensures files[i].document.Some? ==>
              ParseFrom(files[i..], acc) == ParseFrom(files[i + 1..], acc[files[i].relativePath := Summary(files[i])])
  {
    assert files[i..][0] == files[i] && files[i..][1..] == files[i + 1..];
  }

  /** A summary is determined by its four fields. */
  lemma SummaryFields(file: SourceFile, data: WorkflowData)
    requires file.document.Some?
    requires data.path == file.relativePath
    requires data.displayName == DisplayNameFor(file.document.value, file.relativePath)
    requires data.invokedWorkflows == InvokedWorkflows(file.document.value)
    requires data.keyActivities == KeyActivities(file.document.value)
    ensures data == Summary(file)
  {
  }


  /**
   * What `parse_project` promises: it fails exactly when a file does not parse,
   * naming the first; otherwise it keys one summary per relative path, each
   * filed under its own path and built from the last file with that path.
   */
  lemma ProjectSummaries(files: seq<SourceFile>)
    ensures ParseFrom(files, map[]).Failure? <==> exists i :: 0 <= i < |files| && files[i].document.None?
    ensures ParseFrom(files, map[]).Success? ==> ParseFrom(files, map[]).value.Keys == PathsOf(files)
    ensures ParseFrom(files, map[]).Success? ==>
              forall k :: k in ParseFrom(files, map[]).value ==> ParseFrom(files, map[]).value[k].path == k
    ensures ParseFrom(files, map[]).Success? ==>
              forall i :: 0 <= i < |files| && LastWithPath(files, i) ==>
                ParseFrom(files, map[]).value[files[i].relativePath] == Summary(files[i])
  {
    ParseFromFailure(files, map[]);
    ParseFromKeys(files, map[]);
    ParseFromKeyedByPath(files, map[]);
    forall i | 0 <= i < |files| && LastWithPath(files, i)
      ensures ParseFrom(files, map[]).Success? ==>
                ParseFrom(files, map[]).value[files[i].relativePath] == Summary(files[i])
    {
      ParseFromLastWins(files, map[], i);
    }
  }
}
