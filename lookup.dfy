/** What both revisions of `DeviceDriver.get_command` are built from:
    Python's `filter` over the list `get_commands()` returned, the
    "first command with this id" that the lookup is meant to find, and
    the `TypeError` the lookup raises as written. */
module Lookup {
  import opened Commands

  /** `list(filter(p, s))`: the elements of `s` that satisfy `p`, in order. */
  function Filter<T(!new)>(p: T -> bool, s: seq<T>): (r: seq<T>)
    ensures |r| <= |s|
    ensures forall k :: 0 <= k < |r| ==> p(r[k])
    ensures forall x :: x in r <==> x in s && p(x)
  {
    if s == [] then []
    else if p(s[0]) then [s[0]] + Filter(p, s[1..])
    else Filter(p, s[1..])
  }

  /** Filtering keeps every copy of an element that satisfies `p` and none
      of one that does not. */
  lemma {:induction false} FilterCount<T(!new)>(p: T -> bool, s: seq<T>, x: T)
    ensures multiset(Filter(p, s))[x] == if p(x) then multiset(s)[x] else 0
  {
    if s != [] {
      assert s == [s[0]] + s[1..];
      FilterCount(p, s[1..], x);
    }
  }

  /** Filtering preserves order: filtering a concatenation concatenates the
      filtered parts. */
  lemma {:induction false} FilterAppend<T(!new)>(p: T -> bool, s: seq<T>, t: seq<T>)
    ensures Filter(p, s + t) == Filter(p, s) + Filter(p, t)
  {
    if s == [] {
      assert s + t == t;
    } else {
      assert (s + t)[1..] == s[1..] + t;
      FilterAppend(p, s[1..], t);
    }
  }

  /** `s[i]` is the first element of `s` that satisfies `p`. */
  ghost predicate IsFirstMatch<T>(p: T -> bool, s: seq<T>, i: int) {
    0 <= i < |s| && p(s[i]) && forall j :: 0 <= j < i ==> !p(s[j])
  }

  /** The head of a filtered list is the first match of the original list. */
  lemma {:induction false} FilterHeadIsFirstMatch<T(!new)>(p: T -> bool, s: seq<T>)
    requires |Filter(p, s)| > 0
    ensures exists i :: IsFirstMatch(p, s, i) && s[i] == Filter(p, s)[0]
  {
    if p(s[0]) {
      assert IsFirstMatch(p, s, 0);
    } else {
      assert Filter(p, s) == Filter(p, s[1..]);
      FilterHeadIsFirstMatch(p, s[1..]);
      var i :| IsFirstMatch(p, s[1..], i) && s[1..][i] == Filter(p, s[1..])[0];
      assert IsFirstMatch(p, s, i + 1);
    }
  }

  /** The lambda `lambda c: c.id == cmd_id` both revisions filter with. */
  function HasId(cmdId: int): DeviceCommand -> bool {
    (c: DeviceCommand) => c.id == cmdId
  }

  /** `commands[i]` is the first command in list order whose id is `cmdId`. */
  ghost predicate IsFirstWithId(commands: seq<DeviceCommand>, cmdId: int, i: int) {
    0 <= i < |commands| && commands[i].id == cmdId &&
    forall j :: 0 <= j < i ==> commands[j].id != cmdId
  }

  /** Some command in the list carries the id. */
  ghost predicate HasCommandWithId(commands: seq<DeviceCommand>, cmdId: int) {
    exists c :: c in commands && c.id == cmdId
  }

  /** Filtering by id keeps something exactly when some command has that id,
      and then its head is the first such command. */
  lemma FilterByIdHead(commands: seq<DeviceCommand>, cmdId: int)
    ensures |Filter(HasId(cmdId), commands)| > 0 <==> HasCommandWithId(commands, cmdId)
    ensures |Filter(HasId(cmdId), commands)| > 0 ==>
              exists i :: IsFirstWithId(commands, cmdId, i) && commands[i] == Filter(HasId(cmdId), commands)[0]
  {
    var result := Filter(HasId(cmdId), commands);
    if HasCommandWithId(commands, cmdId) {
      var c :| c in commands && c.id == cmdId;
      assert HasId(cmdId)(c);
      assert c in result;
    }
    if |result| > 0 {
      assert HasId(cmdId)(result[0]);
      assert result[0] in commands;
      FilterHeadIsFirstMatch(HasId(cmdId), commands);
      var i :| IsFirstMatch(HasId(cmdId), commands, i) && commands[i] == result[0];
      assert forall j :: 0 <= j < i ==> !HasId(cmdId)(commands[j]);
      assert IsFirstWithId(commands, cmdId, i);
    }
  }

  /** An exception Python raises on its own, outside the driver taxonomy. */
  datatype PythonError = TypeError(message: string)

  /** `result.count()` as written: `list.count` takes exactly one argument,
      so calling it with none raises `TypeError` whatever the list holds. */
  function CountWithoutArgument<T>(items: seq<T>): PythonError {
    TypeError("list.count() takes exactly one argument (0 given)")
  }
}
