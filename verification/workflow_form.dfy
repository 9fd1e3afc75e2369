/**
 The workflow form of the admin client (client/src/components/WorkflowForm.tsx):
 the logic that builds a workflow's ordered list of DNA processes. The form
 keeps two lists, the processes that can still be added and the ordered
 selection; processes move between them, the selection is reordered by drag
 or by up/down buttons, and a valid submit turns the selection into the
 ordered list of process ids sent to the server.
 */
module WorkflowForm {
  import opened Optional
  import opened Sequences

  /** A DNA process as the client holds it (client/src/types.ts). */
  datatype DnaProcess = DnaProcess(id: int, name: string)

  /** One step of the workflow being edited, as fetched; its process may be missing. */
  datatype ProcessLink = ProcessLink(id: int, processOrder: int, dnaProcess: Option<DnaProcess>)

  /** The form's two lists: processes that can still be added, and the ordered selection. */
  datatype Lists = Lists(available: seq<DnaProcess>, selected: seq<DnaProcess>)

  /** The per-field messages `validate` shows. */
  datatype FormErrors = FormErrors(name: Option<string>, createdBy: Option<string>)

  /** What a valid submit hands to the caller. `id` is present only when editing. */
  datatype Payload = Payload(id: Option<int>, name: string, createdBy: int, dnaProcessIds: seq<int>)

  // ---------------------------------------------------------------------------
  // Splicing: `reorder` and `moveSelected` copy the list, remove one element
  // and insert it again.
  // ---------------------------------------------------------------------------

  /** `s` without its element at `i`. */
  function Remove<T>(s: seq<T>, i: nat): (r: seq<T>)
    requires i < |s|
    ensures |r| == |s| - 1
  {
    s[..i] + s[i + 1..]
  }

  /** `s` with `x` inserted so that it lands at index `i`. */
  function InsertAt<T>(s: seq<T>, i: nat, x: T): (r: seq<T>)
    requires i <= |s|
    ensures |r| == |s| + 1
  {
    s[..i] + [x] + s[i..]
  }

  lemma RemoveMultiset<T>(s: seq<T>, i: nat)
    requires i < |s|
    ensures multiset(Remove(s, i)) + multiset{s[i]} == multiset(s)
  {
    assert s == s[..i] + [s[i]] + s[i + 1..];
  }

  lemma InsertAtMultiset<T>(s: seq<T>, i: nat, x: T)
    requires i <= |s|
    ensures multiset(InsertAt(s, i, x)) == multiset(s) + multiset{x}
  {
    assert s == s[..i] + s[i..];
  }

  lemma RemoveUndoesInsertAt<T>(s: seq<T>, i: nat, x: T)
    requires i <= |s|
    ensures InsertAt(s, i, x)[i] == x
    ensures Remove(InsertAt(s, i, x), i) == s
  {
    var r := InsertAt(s, i, x);
    assert r[..i] == s[..i] && r[i + 1..] == s[i..];
  }

  /**
   The list after moving the element at `from` to index `to`: a permutation
   in which that element sits at `to` and the other elements keep their
   relative order.
   */
  function Reordered<T>(s: seq<T>, from: nat, to: nat): (r: seq<T>)
    requires from < |s| && to < |s|
    ensures |r| == |s|
    ensures multiset(r) == multiset(s)
    ensures r[to] == s[from]
    ensures Remove(r, to) == Remove(s, from)
  {
    var t := Remove(s, from);
    RemoveMultiset(s, from);
    InsertAtMultiset(t, to, s[from]);
    RemoveUndoesInsertAt(t, to, s[from]);
    InsertAt(t, to, s[from])
  }

  /** Moving an element to a neighbouring index exchanges the two and moves nothing else. */
  lemma AdjacentReorderIsSwap<T>(s: seq<T>, i: nat, j: nat)
    requires i < |s| && j < |s| && (j == i + 1 || i == j + 1)
    ensures Reordered(s, i, j) == s[i := s[j]][j := s[i]]
  {
    var r := Reordered(s, i, j);
    var w := s[i := s[j]][j := s[i]];
    forall k | 0 <= k < |s| ensures r[k] == w[k] {
      if k < j {
        assert r[k] == Remove(r, j)[k] == Remove(s, i)[k];
      } else if k > j {
        assert r[k] == Remove(r, j)[k - 1] == Remove(s, i)[k - 1];
      }
    }
  }

  /** `splice(i, 1)` on the first `len` cells of `a`: drops the element at `i`. */
  method SpliceOut<T>(a: array<T>, len: nat, i: nat) returns (removed: T)
    requires i < len <= a.Length
    modifies a
    ensures removed == old(a[i])
    ensures a[..len - 1] == Remove(old(a[..len]), i)
    ensures a[len - 1..] == old(a[len - 1..])
  {
    removed := a[i];
    var k := i;
    while k < len - 1
      invariant i <= k <= len - 1
      invariant forall m :: 0 <= m < i ==> a[m] == old(a[m])
      invariant forall m :: i <= m < k ==> a[m] == old(a[m + 1])
      invariant forall m :: k <= m < a.Length ==> a[m] == old(a[m])
    {
      a[k] := a[k + 1];
      k := k + 1;
    }
    ghost var was := old(a[..len]);
    assert forall m :: 0 <= m < len - 1 ==> a[m] == Remove(was, i)[m];
  }

  /** `splice(i, 0, x)` on the first `len` cells of `a`: inserts `x` at `i`. */
  method SpliceIn<T>(a: array<T>, len: nat, i: nat, x: T)
    requires i <= len < a.Length
    modifies a
    ensures a[..len + 1] == InsertAt(old(a[..len]), i, x)
    ensures a[len + 1..] == old(a[len + 1..])
  {
    var k := len;
    while k > i
      invariant i <= k <= len
      invariant forall m :: 0 <= m < k ==> a[m] == old(a[m])
      invariant forall m :: k < m <= len ==> a[m] == old(a[m - 1])
      invariant forall m :: len < m < a.Length ==> a[m] == old(a[m])
    {
      a[k] := a[k - 1];
      k := k - 1;
    }
    a[i] := x;
    ghost var was := old(a[..len]);
    assert forall m :: 0 <= m <= len ==> a[m] == InsertAt(was, i, x)[m];
  }

  /**
   `reorder`: the list after a drag from `startIndex` to `endIndex`. The
   element dragged lands at `endIndex`, the others keep their relative order,
   and no element is gained or lost.
   */
  method Reorder<T>(list: seq<T>, startIndex: nat, endIndex: nat) returns (result: seq<T>)
    requires startIndex < |list| && endIndex < |list|
    ensures result == Reordered(list, startIndex, endIndex)
    ensures |result| == |list| && multiset(result) == multiset(list)
    ensures result[endIndex] == list[startIndex]
    ensures Remove(result, endIndex) == Remove(list, startIndex)
  {
    var a := new T[|list|](i requires 0 <= i < |list| => list[i]);
    assert a[..] == list;
    var removed := SpliceOut(a, a.Length, startIndex);
    assert a[..a.Length - 1] == Remove(list, startIndex);
    SpliceIn(a, a.Length - 1, endIndex, removed);
    assert a[..] == InsertAt(Remove(list, startIndex), endIndex, list[startIndex]);
    result := a[..];
  }

  /**
   `moveSelected`: moves the element at `index` one place up (`dir` = -1) or
   down (`dir` = 1). When the target index is outside the list, the list is
   returned unchanged; otherwise the two neighbours are exchanged and nothing
   else moves.
   */
  method MoveSelected<T>(prev: seq<T>, index: nat, dir: int) returns (arr: seq<T>)
    requires index < |prev| && (dir == -1 || dir == 1)
    ensures !(0 <= index + dir < |prev|) ==> arr == prev
    ensures 0 <= index + dir < |prev| ==> arr == prev[index := prev[index + dir]][index + dir := prev[index]]
  {
    var a := new T[|prev|](i requires 0 <= i < |prev| => prev[i]);
    assert a[..] == prev;
    var to := index + dir;
    if to < 0 || to >= a.Length {
      return a[..];
    }
    var item := SpliceOut(a, a.Length, index);
    assert a[..a.Length - 1] == Remove(prev, index);
    SpliceIn(a, a.Length - 1, to, item);
    assert a[..] == InsertAt(Remove(prev, index), to, prev[index]);
    AdjacentReorderIsSwap(prev, index, to);
    arr := a[..];
  }

  // ---------------------------------------------------------------------------
  // Moving processes between the two lists.
  // ---------------------------------------------------------------------------

  /** Some process in `s` has the id `id` (`Array.prototype.some`). */
  predicate HasId(s: seq<DnaProcess>, id: int)
  {
    exists p :: p in s && p.id == id
  }

  /** No two processes of `s` share an id. */
  predicate UniqueIds(s: seq<DnaProcess>)
  {
    forall i, j :: 0 <= i < j < |s| ==> s[i].id != s[j].id
  }

  /** No process of `a` has the id of a process of `b`. */
  predicate DisjointIds(a: seq<DnaProcess>, b: seq<DnaProcess>)
  {
    forall p :: p in a ==> !HasId(b, p.id)
  }

  /** The state the form keeps: the two lists are disjoint by id and the selection has no repeated id. */
  predicate Consistent(lists: Lists)
  {
    DisjointIds(lists.available, lists.selected) && UniqueIds(lists.selected)
  }

  /** Index of the first process in `s` with id `id`, or -1 (`Array.prototype.find`). */
  function IndexOfId(s: seq<DnaProcess>, id: int): (k: int)
    ensures -1 <= k < |s|
    ensures k == -1 <==> !HasId(s, id)
    ensures 0 <= k ==> k < |s| && s[k].id == id && forall j :: 0 <= j < k ==> s[j].id != id
  {
    if s == [] then -1
    else if s[0].id == id then 0
    else
      var k := IndexOfId(s[1..], id);
      assert s == [s[0]] + s[1..];
      if k == -1 then -1 else assert s[k + 1] in s; k + 1
  }

  /** The test `p.id !== id`. */
  function IdIsNot(id: int): DnaProcess -> bool
  {
    (p: DnaProcess) => p.id != id
  }

  /** The test `!selected.some(s => s.id === p.id)`. */
  function NotIn(selected: seq<DnaProcess>): DnaProcess -> bool
  {
    (p: DnaProcess) => !HasId(selected, p.id)
  }

  /** `s` without any process whose id is `id`, in the order of `s`. */
  function WithoutId(s: seq<DnaProcess>, id: int): (r: seq<DnaProcess>)
    ensures forall p :: p in r <==> p in s && p.id != id
    ensures forall p :: multiset(r)[p] == if p.id != id then multiset(s)[p] else 0
    ensures !HasId(r, id)
    ensures Subsequence(r, s)
  {
    FilterIsSubsequence(s, IdIsNot(id));
    Filter(s, IdIsNot(id))
  }

  /**
   `handleAddProcess`: when `available` holds a process with id `id`, its
   first such process is appended to the selection and every process with
   that id leaves `available`; otherwise neither list changes.
   */
  function AddProcess(lists: Lists, id: int): (r: Lists)
    ensures !HasId(lists.available, id) ==> r == lists
    ensures HasId(lists.available, id) ==>
      && |r.selected| == |lists.selected| + 1
      && r.selected[..|lists.selected|] == lists.selected
      && r.selected[|lists.selected|] == lists.available[IndexOfId(lists.available, id)]
      && r.selected[|lists.selected|].id == id
      && (forall p :: p in r.available <==> p in lists.available && p.id != id)
      && (forall p :: multiset(r.available)[p] == if p.id != id then multiset(lists.available)[p] else 0)
      && Subsequence(r.available, lists.available)
  {
    var k := IndexOfId(lists.available, id);
    if k < 0 then lists
    else Lists(WithoutId(lists.available, id), lists.selected + [lists.available[k]])
  }

  /**
   `handleRemoveSelected`: when the selection holds a process with id `id`,
   every process with that id leaves the selection (the rest keep their
   order) and the first of them is appended to `available`; otherwise neither
   list changes.
   */
  function RemoveSelected(lists: Lists, id: int): (r: Lists)
    ensures !HasId(lists.selected, id) ==> r == lists
    ensures HasId(lists.selected, id) ==>
      && (forall p :: p in r.selected <==> p in lists.selected && p.id != id)
      && (forall p :: multiset(r.selected)[p] == if p.id != id then multiset(lists.selected)[p] else 0)
      && Subsequence(r.selected, lists.selected)
      && |r.available| == |lists.available| + 1
      && r.available[..|lists.available|] == lists.available
      && r.available[|lists.available|] == lists.selected[IndexOfId(lists.selected, id)]
      && r.available[|lists.available|].id == id
  {
    var k := IndexOfId(lists.selected, id);
    if k < 0 then lists
    else Lists(lists.available + [lists.selected[k]], WithoutId(lists.selected, id))
  }

  /**
   The available list computed from the fetched processes: those whose id is
   not selected, in fetched order. It is disjoint from the selection.
   */
  function ComputeAvailable(fetched: seq<DnaProcess>, selected: seq<DnaProcess>): (r: seq<DnaProcess>)
    ensures forall p :: p in r <==> p in fetched && !HasId(selected, p.id)
    ensures forall p :: multiset(r)[p] == if !HasId(selected, p.id) then multiset(fetched)[p] else 0
    ensures Subsequence(r, fetched)
    ensures DisjointIds(r, selected)
  {
    FilterIsSubsequence(fetched, NotIn(selected));
    Filter(fetched, NotIn(selected))
  }

  /** A subsequence of a list without repeated ids has no repeated ids. */
  lemma {:induction false} SubsequenceKeepsUniqueIds(a: seq<DnaProcess>, b: seq<DnaProcess>)
    requires Subsequence(a, b) && UniqueIds(b)
    ensures UniqueIds(a)
  {
    if a != [] {
      if a[0] == b[0] && Subsequence(a[1..], b[1..]) {
        SubsequenceKeepsUniqueIds(a[1..], b[1..]);
        SubsequenceMembers(a[1..], b[1..]);
        forall j | 0 < j < |a| ensures a[0].id != a[j].id {
          assert a[j] == a[1..][j - 1];
          assert a[j] in a[1..];
          assert a[j] in b[1..];
          var m :| 0 <= m < |b[1..]| && b[1..][m] == a[j];
          assert b[m + 1] == a[j];
        }
      } else {
        SubsequenceKeepsUniqueIds(a, b[1..]);
      }
    }
  }

  /** Adding a process keeps the two lists disjoint and the selection free of repeats. */
  lemma AddProcessKeepsConsistent(lists: Lists, id: int)
    requires Consistent(lists)
    ensures Consistent(AddProcess(lists, id))
  {
    var r := AddProcess(lists, id);
    if HasId(lists.available, id) {
      var p := lists.available[IndexOfId(lists.available, id)];
      assert p in lists.available;
      assert !HasId(lists.selected, id);
      forall i, j | 0 <= i < j < |r.selected| ensures r.selected[i].id != r.selected[j].id {
        if j == |lists.selected| {
          assert r.selected[i] in lists.selected;
        } else {
          assert r.selected[i] == lists.selected[i] && r.selected[j] == lists.selected[j];
        }
      }
      forall q | q in r.available ensures !HasId(r.selected, q.id) {
        forall s | s in r.selected ensures s.id != q.id {
          var m :| 0 <= m < |r.selected| && r.selected[m] == s;
          if m < |lists.selected| {
            assert s == lists.selected[m];
            assert s in lists.selected;
          }
        }
      }
    }
  }

  /** Removing a process keeps the two lists disjoint and the selection free of repeats. */
  lemma RemoveSelectedKeepsConsistent(lists: Lists, id: int)
    requires Consistent(lists)
    ensures Consistent(RemoveSelected(lists, id))
  {
    var r := RemoveSelected(lists, id);
    if HasId(lists.selected, id) {
      SubsequenceKeepsUniqueIds(r.selected, lists.selected);
      forall q | q in r.available ensures !HasId(r.selected, q.id) {
        var m :| 0 <= m < |r.available| && r.available[m] == q;
        if m < |lists.available| {
          assert q in lists.available;
        }
      }
    }
  }

  // ---------------------------------------------------------------------------
  // Initial selection from the workflow being edited.
  // ---------------------------------------------------------------------------

  function LinkOrder(l: ProcessLink): int
  {
    l.processOrder
  }

  /** The test `Boolean(o)` on a link's process field: a process is present. */
  function IsPresent(o: Option<DnaProcess>): bool
  {
    o.Some?
  }

  /** Each process as a present process field. */
  function Wrap(ps: seq<DnaProcess>): (r: seq<Option<DnaProcess>>)
    ensures |r| == |ps| && forall i :: 0 <= i < |ps| ==> r[i] == Some(ps[i])
  {
    seq(|ps|, i requires 0 <= i < |ps| => Some(ps[i]))
  }

  /**
   The processes the links carry, in link order, links without a process
   dropped (`.map(...).filter(Boolean)`): wrapped back as process fields, they
   are exactly the present fields of the links, in order and with their
   multiplicities.
   */
  function LinkedProcesses(links: seq<ProcessLink>): (r: seq<DnaProcess>)
    ensures Wrap(r) == Filter(LinkOptions(links), IsPresent)
    ensures |r| <= |links|
    ensures forall p :: p in r <==> Some(p) in LinkOptions(links)
    ensures (forall i :: 0 <= i < |links| ==> links[i].dnaProcess.Some?) ==>
      |r| == |links| && forall i :: 0 <= i < |links| ==> r[i] == links[i].dnaProcess.value
  {
    var r := PresentProcesses(links);
    PresentProcessesFacts(links, r);
    r
  }

  /** The recursion of `LinkedProcesses`: its present fields, unwrapped. */
  function PresentProcesses(links: seq<ProcessLink>): (r: seq<DnaProcess>)
    ensures Wrap(r) == Filter(LinkOptions(links), IsPresent)
  {
    if links == [] then []
    else
      var rest := PresentProcesses(links[1..]);
      FilterOptionsStep(links);
      if links[0].dnaProcess.Some? then
        WrapCons(links[0].dnaProcess.value, rest);
        [links[0].dnaProcess.value] + rest
      else
        rest
  }

  /** One step of filtering the process fields: the first link's field is kept exactly when present. */
  lemma FilterOptionsStep(links: seq<ProcessLink>)
    requires links != []
    ensures Filter(LinkOptions(links), IsPresent)
         == (if links[0].dnaProcess.Some? then [links[0].dnaProcess] else []) + Filter(LinkOptions(links[1..]), IsPresent)
  {
    assert LinkOptions(links)[1..] == LinkOptions(links[1..]);
  }

  lemma WrapCons(p: DnaProcess, rest: seq<DnaProcess>)
    ensures Wrap([p] + rest) == [Some(p)] + Wrap(rest)
  {
  }

  /** What the exact characterisation of the carried processes gives: a bound, membership, and the all-present case. */
  lemma PresentProcessesFacts(links: seq<ProcessLink>, r: seq<DnaProcess>)
    requires Wrap(r) == Filter(LinkOptions(links), IsPresent)
    ensures |r| <= |links|
    ensures forall p :: p in r <==> Some(p) in LinkOptions(links)
    ensures (forall i :: 0 <= i < |links| ==> links[i].dnaProcess.Some?) ==>
      |r| == |links| && forall i :: 0 <= i < |links| ==> r[i] == links[i].dnaProcess.value
  {
    var opts := LinkOptions(links);
    assert |Wrap(r)| == |r|;
    forall p ensures p in r <==> Some(p) in opts {
      WrapMember(r, p);
      assert IsPresent(Some(p));
    }
    if forall i :: 0 <= i < |links| ==> links[i].dnaProcess.Some? {
      AllPresent(links, r);
    }
  }

  lemma WrapMember(r: seq<DnaProcess>, p: DnaProcess)
    ensures p in r <==> Some(p) in Wrap(r)
  {
    var w := Wrap(r);
    if p in r {
      var i :| 0 <= i < |r| && r[i] == p;
      assert w[i] == Some(p);
    }
    if Some(p) in w {
      var i :| 0 <= i < |w| && w[i] == Some(p);
      assert r[i] == p;
    }
  }

  lemma AllPresent(links: seq<ProcessLink>, r: seq<DnaProcess>)
    requires Wrap(r) == Filter(LinkOptions(links), IsPresent)
    requires forall i :: 0 <= i < |links| ==> links[i].dnaProcess.Some?
    ensures |r| == |links| && forall i :: 0 <= i < |links| ==> r[i] == links[i].dnaProcess.value
  {
    var opts := LinkOptions(links);
    OptionsAllPresent(links);
    FilterKeepsAll(opts, IsPresent);
    Unwrap(r, opts);
    assert |r| == |opts| == |links|;
    forall i | 0 <= i < |links| ensures r[i] == links[i].dnaProcess.value {
      assert opts[i] == links[i].dnaProcess && opts[i] == Some(r[i]);
    }
  }

  lemma OptionsAllPresent(links: seq<ProcessLink>)
    requires forall i :: 0 <= i < |links| ==> links[i].dnaProcess.Some?
    ensures forall i :: 0 <= i < |LinkOptions(links)| ==> IsPresent(LinkOptions(links)[i])
  {
  }

  lemma Unwrap(r: seq<DnaProcess>, opts: seq<Option<DnaProcess>>)
    requires Wrap(r) == opts
    ensures |r| == |opts| && forall i :: 0 <= i < |r| ==> opts[i] == Some(r[i])
  {
  }

  /** The process field of each link, in order. */
  function LinkOptions(links: seq<ProcessLink>): (r: seq<Option<DnaProcess>>)
    ensures |r| == |links| && forall i :: 0 <= i < |links| ==> r[i] == links[i].dnaProcess
  {
    seq(|links|, i requires 0 <= i < |links| => links[i].dnaProcess)
  }

  /**
   The initial selection: when the workflow has a links array, its links
   sorted by non-decreasing `processOrder` (ties kept in array order), mapped
   to their processes, links without a process dropped; otherwise empty.
   */
  function InitialSelected(links: Option<seq<ProcessLink>>): (r: seq<DnaProcess>)
    ensures links.None? ==> r == []
    ensures links.Some? ==> forall p :: p in r <==> Some(p) in LinkOptions(links.value)
    ensures links.Some? ==> exists sorted ::
      && SortedBy(sorted, LinkOrder)
      && multiset(sorted) == multiset(links.value)
      && (forall k :: Filter(sorted, HasKey(LinkOrder, k)) == Filter(links.value, HasKey(LinkOrder, k)))
      && r == LinkedProcesses(sorted)
  {
    match links
    case None => []
    case Some(ls) =>
      var sorted := SortBy(ls, LinkOrder);
      PermutedOptions(sorted, ls);
      PermutedOptions(ls, sorted);
      SortByStableAll(ls, LinkOrder);
      LinkedProcesses(sorted)
  }

  /** Every process field of `a` is a process field of its permutation `b`. */
  lemma PermutedOptions(a: seq<ProcessLink>, b: seq<ProcessLink>)
    requires multiset(a) == multiset(b)
    ensures forall o :: o in LinkOptions(a) ==> o in LinkOptions(b)
  {
    forall o | o in LinkOptions(a) ensures o in LinkOptions(b) {
      var i :| 0 <= i < |a| && LinkOptions(a)[i] == o;
      assert a[i] in multiset(b);
      var j :| 0 <= j < |b| && b[j] == a[i];
      assert LinkOptions(b)[j] == o;
    }
  }

  /** Links already in `processOrder` order, each with its process, give their processes in that order. */
  lemma InitialSelectedOfOrderedLinks(links: seq<ProcessLink>)
    requires SortedBy(links, LinkOrder)
    requires forall i :: 0 <= i < |links| ==> links[i].dnaProcess.Some?
    ensures |InitialSelected(Some(links))| == |links|
    ensures forall i :: 0 <= i < |links| ==> InitialSelected(Some(links))[i] == links[i].dnaProcess.value
  {
    SortBySorted(links, LinkOrder);
  }

  // ---------------------------------------------------------------------------
  // Validation and submit.
  // ---------------------------------------------------------------------------

  /** The characters `String.prototype.trim` strips: ECMAScript WhiteSpace and LineTerminator. */
  predicate IsWhitespace(c: char)
  {
    c in {'\t', '\n', '\U{000B}', '\U{000C}', '\r', ' ', '\U{00A0}', '\U{1680}',
          '\U{2000}', '\U{2001}', '\U{2002}', '\U{2003}', '\U{2004}', '\U{2005}',
          '\U{2006}', '\U{2007}', '\U{2008}', '\U{2009}', '\U{200A}',
          '\U{2028}', '\U{2029}', '\U{202F}', '\U{205F}', '\U{3000}', '\U{FEFF}'}
  }

  /** The number of whitespace characters at the start of `s`. */
  function LeadingWhitespace(s: string): (n: nat)
    ensures n <= |s|
    ensures forall i :: 0 <= i < n ==> IsWhitespace(s[i])
    ensures n < |s| ==> !IsWhitespace(s[n])
  {
    if s == [] || !IsWhitespace(s[0]) then 0
    else 1 + LeadingWhitespace(s[1..])
  }

  /** The length of `s` without its trailing whitespace. */
  function WithoutTrailingWhitespace(s: string): (n: nat)
    ensures n <= |s|
    ensures forall i :: n <= i < |s| ==> IsWhitespace(s[i])
    ensures 0 < n ==> !IsWhitespace(s[n - 1])
  {
    if s == [] || !IsWhitespace(s[|s| - 1]) then |s|
    else WithoutTrailingWhitespace(s[..|s| - 1])
  }

  /**
   `String.prototype.trim`: `s` without leading and trailing whitespace. The
   result is empty exactly when `s` is all whitespace; otherwise it starts
   and ends with a non-whitespace character.
   */
  function Trim(s: string): (r: string)
    ensures r == [] <==> forall i :: 0 <= i < |s| ==> IsWhitespace(s[i])
    ensures r != [] ==> !IsWhitespace(r[0]) && !IsWhitespace(r[|r| - 1])
    ensures var b := LeadingWhitespace(s);
      && b + |r| <= |s|
      && r == s[b..b + |r|]
      && forall i :: b + |r| <= i < |s| ==> IsWhitespace(s[i])
  {
    var e := WithoutTrailingWhitespace(s);
    var b := LeadingWhitespace(s);
    if e == 0 then [] else s[b..e]
  }

  /**
   `validate`: builds the error object field by field. The name is in error
   exactly when it trims to the empty string, the creator exactly when it is
   not positive; the form is valid, and the error state cleared, exactly when
   neither is.
   */
  method Validate(name: string, createdBy: int) returns (errors: Option<FormErrors>, ok: bool)
    ensures ok <==> Trim(name) != [] && createdBy > 0
    ensures ok <==> errors.None?
    ensures errors.Some? ==> (errors.value.name.Some? <==> Trim(name) == [])
    ensures errors.Some? ==> (errors.value.createdBy.Some? <==> createdBy <= 0)
    ensures errors.Some? && errors.value.name.Some? ==> errors.value.name.value == "Name is required"
    ensures errors.Some? && errors.value.createdBy.Some? ==> errors.value.createdBy.value == "Creator is required"
  {
    var e := FormErrors(None, None);
    if Trim(name) == [] {
      e := e.(name := Some("Name is required"));
    }
    if createdBy <= 0 {
      e := e.(createdBy := Some("Creator is required"));
    }
    ok := e.name.None? && e.createdBy.None?;
    errors := if ok then None else Some(e);
  }

  /** The ids of `s`, in order (`.map(p => p.id)`). */
  function Ids(s: seq<DnaProcess>): (r: seq<int>)
    ensures |r| == |s| && forall i :: 0 <= i < |s| ==> r[i] == s[i].id
  {
    if s == [] then [] else [s[0].id] + Ids(s[1..])
  }

  /** No value occurs twice in `s`. */
  predicate NoDuplicates(s: seq<int>)
  {
    forall i, j :: 0 <= i < j < |s| ==> s[i] != s[j]
  }

  /**
   `handleSubmit`: validates, and when valid builds the payload: the id of
   the workflow being edited when it has a non-zero one, the trimmed name,
   the creator, and the ids of the selection in list order. A selection
   without repeated ids gives a payload without repeated ids.
   */
  method HandleSubmit(initialId: Option<int>, name: string, createdBy: int, selected: seq<DnaProcess>)
    returns (errors: Option<FormErrors>, payload: Option<Payload>)
    ensures payload.Some? <==> Trim(name) != [] && createdBy > 0
    ensures payload.Some? <==> errors.None?
    ensures payload.Some? ==> (payload.value.id.Some? <==> initialId.Some? && initialId.value != 0)
    ensures payload.Some? && payload.value.id.Some? ==> payload.value.id == initialId
    ensures payload.Some? ==> payload.value.name == Trim(name) && payload.value.createdBy == createdBy
    ensures payload.Some? ==> |payload.value.dnaProcessIds| == |selected|
    ensures payload.Some? ==> forall i :: 0 <= i < |selected| ==> payload.value.dnaProcessIds[i] == selected[i].id
    ensures payload.Some? && UniqueIds(selected) ==> NoDuplicates(payload.value.dnaProcessIds)
  {
    var ok;
    errors, ok := Validate(name, createdBy);
    if !ok {
      return errors, None;
    }
    var id := if initialId.Some? && initialId.value != 0 then initialId else None;
    payload := Some(Payload(id, Trim(name), createdBy, Ids(selected)));
  }
}
