/** CScriptLabelMan and CScriptVarMan: the labels and variables of a script, under folded names. */
module ScriptStores {
  import opened Wrappers
  import opened ScriptText
  import opened ScriptReader

  const KMaxLabelLength := 20
  const KMaxVarNameLength := 20

  /** Names are stored folded. */
  datatype Label = Label(name: string, pos: LinePosition)
  datatype Variable = Variable(name: string, content: string)

  // ---------- labels ----------

  /** The index of the first label of that name, or the number of labels. */
  function LabelAt(labels: seq<Label>, name: string): (r: nat)
    ensures r <= |labels|
    ensures r < |labels| ==> Fold(labels[r].name) == Fold(name)
    ensures forall k :: 0 <= k < r ==> Fold(labels[k].name) != Fold(name)
  {
    if labels == [] || Fold(labels[0].name) == Fold(name) then 0 else 1 + LabelAt(labels[1..], name)
  }

  function FindLabel(labels: seq<Label>, name: string): Option<LinePosition> {
    var i := LabelAt(labels, name);
    if i < |labels| then Some(labels[i].pos) else None
  }

  /** AddLabelL */
  function AddLabel(labels: seq<Label>, name: string, pos: LinePosition): Result<seq<Label>> {
    if |name| > KMaxLabelLength then Leave(LabelNameTooLong)
    else
      match FindLabel(labels, name)
      case None => Ok(labels + [Label(Fold(name), pos)])
      case Some(known) => if pos.count != known.count || pos.offset != known.offset then Leave(AlreadyExists)
        else Ok(labels)
  }

  ghost predicate LabelsPlaced(script: string, labels: seq<Label>, base: int) {
    forall i :: 0 <= i < |labels| ==> Placed(script, labels[i].pos, base)
  }

  lemma {:induction false} LabelAtAppend(labels: seq<Label>, l: Label, name: string)
    ensures LabelAt(labels + [l], name) ==
            if LabelAt(labels, name) < |labels| then LabelAt(labels, name)
            else |labels| + if Fold(l.name) == Fold(name) then 0 else 1
  {
    if labels == [] {
      assert [l][1..] == [];
    } else {
      assert (labels + [l])[1..] == labels[1..] + [l];
      LabelAtAppend(labels[1..], l, name);
    }
  }

  /**
   With positions of lines, a definition is accepted exactly when its name is new or
   was recorded at this very place, and rejected as a second definition exactly when
   it was recorded elsewhere; an accepted one is found where it is, and the others stay.
  */
  lemma LabelsNamePlaces(script: string, labels: seq<Label>, name: string, pos: LinePosition, base: int)
    requires LabelsPlaced(script, labels, base) && Placed(script, pos, base) && |name| <= KMaxLabelLength
    ensures var known := FindLabel(labels, name);
            var r := AddLabel(labels, name, pos);
            && (r.Ok? <==> known.None? || (known.value.start == pos.start && known.value.offset == pos.offset))
            && (!r.Ok? <==> r == Leave(AlreadyExists))
            && (r.Ok? ==>
                  && LabelsPlaced(script, r.value, base)
                  && FindLabel(r.value, name) == Some(pos)
                  && forall other :: Fold(other) != Fold(name) ==>
                     FindLabel(r.value, other) == FindLabel(labels, other))
  {
    FoldTwice(name);
    var i := LabelAt(labels, name);
    if i < |labels| {
      CountNamesLine(script, labels[i].pos, pos, base);
    } else {
      var l := Label(Fold(name), pos);
      LabelAtAppend(labels, l, name);
      forall other | Fold(other) != Fold(name) ensures FindLabel(labels + [l], other) == FindLabel(labels, other) {
        LabelAtAppend(labels, l, other);
      }
    }
  }

  // ---------- variables ----------

  function VariableAt(vars: seq<Variable>, name: string): (r: nat)
    ensures r <= |vars|
    ensures r < |vars| ==> Fold(vars[r].name) == Fold(name)
    ensures forall k :: 0 <= k < r ==> Fold(vars[k].name) != Fold(name)
  {
    if vars == [] || Fold(vars[0].name) == Fold(name) then 0 else 1 + VariableAt(vars[1..], name)
  }

  /** FindVariable */
  function Lookup(vars: seq<Variable>, name: string): Option<string> {
    var i := VariableAt(vars, name);
    if i < |vars| then Some(vars[i].content) else None
  }

  /** The store with a variable defined anew or given another content. */
  function Define(vars: seq<Variable>, name: string, content: string): seq<Variable> {
    var i := VariableAt(vars, name);
    if i < |vars| then vars[i := vars[i].(content := content)] else vars + [Variable(Fold(name), content)]
  }

  /** AddVariableL */
  function AddVariable(vars: seq<Variable>, name: string, content: string): Result<seq<Variable>> {
    if |name| > KMaxVarNameLength then Leave(VariableNameTooLong) else Ok(Define(vars, name, content))
  }

  lemma {:induction false} VariableAtUpdate(vars: seq<Variable>, i: nat, content: string, name: string)
    requires i < |vars|
    ensures VariableAt(vars[i := vars[i].(content := content)], name) == VariableAt(vars, name)
  {
    var after := vars[i := vars[i].(content := content)];
    if i == 0 {
      assert after[1..] == vars[1..];
    } else {
      assert after[1..] == vars[1..][i - 1 := vars[1..][i - 1].(content := content)];
      VariableAtUpdate(vars[1..], i - 1, content, name);
    }
  }

  lemma {:induction false} VariableAtAppend(vars: seq<Variable>, v: Variable, name: string)
    ensures VariableAt(vars + [v], name) ==
            if VariableAt(vars, name) < |vars| then VariableAt(vars, name)
            else |vars| + if Fold(v.name) == Fold(name) then 0 else 1
  {
    if vars == [] {
      assert [v][1..] == [];
    } else {
      assert (vars + [v])[1..] == vars[1..] + [v];
      VariableAtAppend(vars[1..], v, name);
    }
  }

  /** The store is a map from folded names: defining changes this name and no other. */
  lemma DefineThenLookup(vars: seq<Variable>, name: string, content: string, other: string)
    ensures Lookup(Define(vars, name, content), other) ==
            if Fold(other) == Fold(name) then Some(content) else Lookup(vars, other)
  {
    FoldTwice(name);
    var i := VariableAt(vars, name);
    if i < |vars| {
      VariableAtUpdate(vars, i, content, other);
      SameName(vars, other, name);
    } else {
      VariableAtAppend(vars, Variable(Fold(name), content), other);
      SameName(vars, other, name);
    }
  }

  lemma {:induction false} SameName(vars: seq<Variable>, a: string, b: string)
    ensures Fold(a) == Fold(b) ==> VariableAt(vars, a) == VariableAt(vars, b)
  {
    if vars != [] {
      SameName(vars[1..], a, b);
    }
  }

  // ---------- the objects ----------

  class LabelMan {
    var labels: seq<Label>

    constructor ()
      ensures labels == []
    {
      labels := [];
    }

    method Find(name: string) returns (pos: Option<LinePosition>)
      ensures pos == FindLabel(labels, name)
    {
      var index := 0;
      while index < |labels|
        invariant 0 <= index <= |labels|
        invariant LabelAt(labels, name) == index + LabelAt(labels[index..], name)
      {
        assert labels[index..][0] == labels[index] && labels[index..][1..] == labels[index + 1..];
        if Fold(labels[index].name) == Fold(name) {
          return Some(labels[index].pos);
        }
        index := index + 1;
      }
      return None;
    }

    method Add(name: string, pos: LinePosition) returns (r: Result<()>)
      modifies this
      ensures match AddLabel(old(labels), name, pos)
              case Ok(after) => r == Ok(()) && labels == after
              case Leave(error) => r == Leave(error) && labels == old(labels)
              case Panic => false
    {
      if |name| > KMaxLabelLength {
        return Leave(LabelNameTooLong);
      }
      var known := Find(name);
      if known.None? {
        labels := labels + [Label(Fold(name), pos)];
      } else if pos.count != known.value.count || pos.offset != known.value.offset {
        return Leave(AlreadyExists);
      }
      return Ok(());
    }
  }

  class VarMan {
    var vars: seq<Variable>
    var index: nat              // iIndex, where FindVariable stopped

    constructor ()
      ensures vars == []
    {
      vars, index := [], 0;
    }

    method Find(name: string) returns (content: Option<string>)
      modifies this`index
      ensures content == Lookup(vars, name) && index == VariableAt(vars, name)
    {
      index := 0;
      while index < |vars|
        invariant 0 <= index <= |vars|
        invariant VariableAt(vars, name) == index + VariableAt(vars[index..], name)
      {
        assert vars[index..][0] == vars[index] && vars[index..][1..] == vars[index + 1..];
        if Fold(vars[index].name) == Fold(name) {
          return Some(vars[index].content);
        }
        index := index + 1;
      }
      return None;
    }

    method Add(name: string, content: string) returns (r: Result<()>)
      modifies this
      ensures match AddVariable(old(vars), name, content)
              case Ok(after) => r == Ok(()) && vars == after
              case Leave(error) => r == Leave(error) && vars == old(vars)
              case Panic => false
    {
      if |name| > KMaxVarNameLength {
        return Leave(VariableNameTooLong);
      }
      var known := Find(name);
      if known.None? {
        vars := vars + [Variable(Fold(name), content)];
      } else {
        vars := vars[index := vars[index].(content := content)];
      }
      return Ok(());
    }
  }
}
