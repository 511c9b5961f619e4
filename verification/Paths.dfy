/** Path strings on Unix: how they split into segments, what Rust's `components()` makes of
    them, and what the operating system walks. */
module Paths {
  import opened Core

  type Name = string

  /** A canonical path: the names from the root of the tree. */
  type Path = seq<Name>

  /** What the operating system does with one segment. `Here` is an empty or `.` segment:
      it stays, but only a directory can be stayed in. */
  datatype Step = Here | Up | Into(name: Name)

  /** `std::path::Component` without the Windows prefixes. */
  datatype Component = RootDir | CurDir | ParentDir | Normal(name: Name)

  /** A name a directory entry can have. */
  predicate ValidName(name: Name)
  {
    name != "" && name != "." && name != ".." && '/' !in name
  }

  predicate ValidNames(names: seq<Name>)
  {
    forall i :: 0 <= i < |names| ==> ValidName(names[i])
  }

  /** The segments between slashes. */
  function Split(text: string): (segments: seq<string>)
    ensures |segments| >= 1
  {
    if text == "" then [""]
    else if text[0] == '/' then [""] + Split(text[1..])
    else
      var rest := Split(text[1..]);
      [[text[0]] + rest[0]] + rest[1..]
  }

  /** `parts.join("/")` */
  function Join(parts: seq<string>): string
  {
    if parts == [] then "" else if |parts| == 1 then parts[0] else parts[0] + "/" + Join(parts[1..])
  }

  function StepOf(segment: string): Step
  {
    if segment == "" || segment == "." then Here else if segment == ".." then Up else Into(segment)
  }

  function StepsOf(segments: seq<string>): (steps: seq<Step>)
    ensures |steps| == |segments|
    ensures forall i :: 0 <= i < |steps| ==> steps[i] == StepOf(segments[i])
  {
    if segments == [] then [] else [StepOf(segments[0])] + StepsOf(segments[1..])
  }

  function Walked(text: string): seq<Step>
  {
    StepsOf(Split(text))
  }

  function StepsInto(names: seq<Name>): (steps: seq<Step>)
    ensures |steps| == |names|
    ensures forall i :: 0 <= i < |steps| ==> steps[i] == Into(names[i])
  {
    if names == [] then [] else [Into(names[0])] + StepsInto(names[1..])
  }

  /** The components after the first: `.` and empty segments are dropped. */
  function LaterComponents(segments: seq<string>): seq<Component>
  {
    if segments == [] then []
    else
      match StepOf(segments[0])
      case Here => LaterComponents(segments[1..])
      case Up => [ParentDir] + LaterComponents(segments[1..])
      case Into(name) => [Normal(name)] + LaterComponents(segments[1..])
  }

  /** `Path::new(text).components()` */
  function Components(text: string): seq<Component>
  {
    var segments := Split(text);
    if text == "" then []
    else if text[0] == '/' then [RootDir] + LaterComponents(segments[1..])
    else if segments[0] == "." then [CurDir] + LaterComponents(segments[1..])
    else LaterComponents(segments)
  }

  predicate IsAbsolute(text: string)
  {
    text != "" && text[0] == '/'
  }

  // ----- Split undoes join ----------------------------------------------------

  lemma {:induction false} SplitName(name: string)
    requires '/' !in name
    ensures Split(name) == [name]
  {
    if name != "" {
      SplitName(name[1..]);
      assert [name[0]] + name[1..] == name;
    }
  }

  lemma {:induction false} SplitFirst(name: string, rest: string)
    requires '/' !in name
    ensures Split(name + "/" + rest) == [name] + Split(rest)
  {
    var text := name + "/" + rest;
    if name == "" {
      assert text[1..] == rest;
    } else {
      SplitFirst(name[1..], rest);
      assert text[1..] == name[1..] + "/" + rest;
      assert [name[0]] + name[1..] == name;
      assert text[0] == name[0];
    }
  }

  lemma {:induction false} SplitUndoesJoin(parts: seq<string>)
    requires parts != [] && forall i :: 0 <= i < |parts| ==> '/' !in parts[i]
    ensures Split(Join(parts)) == parts
  {
    if |parts| == 1 {
      SplitName(parts[0]);
    } else {
      SplitUndoesJoin(parts[1..]);
      SplitFirst(parts[0], Join(parts[1..]));
    }
  }

  lemma NamesWalkInto(names: seq<Name>)
    requires names != [] && ValidNames(names)
    ensures Split(Join(names)) == names
    ensures Walked(Join(names)) == StepsInto(names)
  {
    SplitUndoesJoin(names);
    assert Walked(Join(names)) == StepsInto(names);
  }

  lemma {:induction false} NamesAreNormal(names: seq<Name>)
    requires ValidNames(names)
    ensures |LaterComponents(names)| == |names|
    ensures forall i :: 0 <= i < |names| ==> LaterComponents(names)[i] == Normal(names[i])
  {
    if names != [] {
      NamesAreNormal(names[1..]);
    }
  }

  /** The components say what the walk does: a name for each step into one, a parent for
      each step up, and never a root or a leading dot. */
  lemma {:induction false} LaterComponentsSay(segments: seq<string>)
    ensures forall name :: Normal(name) in LaterComponents(segments) <==> Into(name) in StepsOf(segments)
    ensures ParentDir in LaterComponents(segments) <==> Up in StepsOf(segments)
    ensures RootDir !in LaterComponents(segments) && CurDir !in LaterComponents(segments)
  {
    if segments != [] {
      LaterComponentsSay(segments[1..]);
      var step := StepOf(segments[0]);
      assert StepsOf(segments) == [step] + StepsOf(segments[1..]);
    }
  }
}
