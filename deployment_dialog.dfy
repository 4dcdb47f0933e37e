/**
 * The deploy workflow settings dialog of `src/components/DeploymentDialog.tsx`:
 * when the settings may be saved, and the extra workflow arguments shown as
 * `key=value` chips and read back from the chips the user edited.
 */
module DeploymentDialog {
  import opened Wrappers
  import opened Text
  import opened Seqs
  import opened Schemas

  /** `valid`: a dialog is open with a workflow chosen, a release input name and a ref. Submitting saves only then. */
  predicate Valid(dialog: Option<WorkflowSettings>) {
    dialog.Some? && dialog.value.workflowId != 0 && dialog.value.releaseKey != "" && dialog.value.ref != ""
  }

  /** Submitting the form: the open dialog's settings go to `saveDeployment` exactly when they are valid. */
  function Submit(dialog: Option<WorkflowSettings>): (saved: Option<WorkflowSettings>)
    ensures saved.Some? <==> dialog.Some? && dialog.value.workflowId != 0 &&
                             dialog.value.releaseKey != "" && dialog.value.ref != ""
    ensures saved.Some? ==> saved == dialog
  {
    if Valid(dialog) then dialog else None
  }

  /**
   * Settings fresh from `createDeploySettings` become savable exactly when a
   * workflow has been chosen and the ref is non-empty; with the default
   * workflow id they never are.
   */
  lemma CreatedSettingsValid(workflowId: Option<int>, ref: string)
    ensures Valid(Some(CreateDeploySettings(workflowId, ref).workflow)) <==>
              workflowId.Some? && workflowId.value != 0 && ref != ""
    ensures workflowId.None? ==> !Valid(Some(CreateDeploySettings(workflowId, ref).workflow))
  {
  }

  /** One extra argument as its chip text. */
  function RenderExtraArg(key: string, value: string): (text: string)
    ensures |text| == |key| + 1 + |value|
    ensures StartsWith(text, key) && text[|key|] == '='
    ensures text[|key| + 1..] == value
  {
    key + "=" + value
  }

  /**
   * `Object.entries(extraArgs).map(([key, value]) => key=value)`; `keys` is
   * the object's key order.
   */
  function RenderExtraArgs(args: map<string, string>, keys: seq<string>): (items: seq<string>)
    requires forall i :: 0 <= i < |keys| ==> keys[i] in args
    ensures |items| == |keys|
    ensures forall i :: 0 <= i < |keys| ==> items[i] == RenderExtraArg(keys[i], args[keys[i]])
  {
    seq(|keys|, i requires 0 <= i < |keys| => RenderExtraArg(keys[i], args[keys[i]]))
  }

  /** A value of the free-solo chip input: typed text, or some other (non-string) value. */
  datatype Chip = TextChip(text: string) | OtherChip

  /** The chips of some typed texts. */
  function Typed(items: seq<string>): (chips: seq<Chip>)
    ensures |chips| == |items|
    ensures forall i :: 0 <= i < |items| ==> chips[i] == TextChip(items[i])
  {
    seq(|items|, i requires 0 <= i < |items| => TextChip(items[i]))
  }

  /**
   * A chip's `[key, value]` pair: text only, split on `=`, kept when the first
   * two parts are both non-empty (a third part and beyond are dropped).
   */
  function PairOf(chip: Chip): (p: Option<(string, string)>)
    ensures p.Some? <==> chip.TextChip? && |Split(chip.text, '=')| >= 2 &&
                         Split(chip.text, '=')[0] != "" && Split(chip.text, '=')[1] != ""
    ensures p.Some? ==> p.value == (Split(chip.text, '=')[0], Split(chip.text, '=')[1])
  {
    if chip.OtherChip? then None
    else
      var parts := Split(chip.text, '=');
      if |parts| >= 2 && parts[0] != "" && parts[1] != "" then Some((parts[0], parts[1])) else None
  }

  /** No key or value of a parsed argument is empty or contains `=`. */
  ghost predicate WellFormedArgs(args: map<string, string>) {
    forall k :: k in args ==> k != "" && '=' !in k && args[k] != "" && '=' !in args[k]
  }

  /** The `onChange` pipeline: filter strings, split, keep complete pairs, `fromPairs` (a later key wins). */
  function ParseExtraArgs(chips: seq<Chip>): (args: map<string, string>)
    ensures WellFormedArgs(args)
    decreases |chips|
  {
    if |chips| == 0 then map[]
    else
      var args := ParseExtraArgs(chips[..|chips| - 1]);
      var p := PairOf(chips[|chips| - 1]);
      if p.Some? then args[p.value.0 := p.value.1] else args
  }

  /** `key=value=more` reads as `key` to `value`; with nothing after `value`, too. */
  lemma PairOfRendered(key: string, value: string, more: string)
    requires key != "" && '=' !in key && value != "" && '=' !in value
    ensures PairOf(TextChip(RenderExtraArg(key, value))) == Some((key, value))
    ensures PairOf(TextChip(RenderExtraArg(key, value) + "=" + more)) == Some((key, value))
  {
    SplitAfterWord(key, value, '=');
    SplitNoSeparator(value, '=');
    assert RenderExtraArg(key, value) + "=" + more == key + "=" + (value + "=" + more);
    SplitAfterWord(key, value + "=" + more, '=');
    SplitAfterWord(value, more, '=');
  }

  /** A later chip for a key overrides what earlier chips said about it. */
  lemma ParseLaterWins(chips: seq<Chip>, key: string, value: string)
    requires key != "" && '=' !in key && value != "" && '=' !in value
    ensures ParseExtraArgs(chips + [TextChip(RenderExtraArg(key, value))]) == ParseExtraArgs(chips)[key := value]
  {
    var all := chips + [TextChip(RenderExtraArg(key, value))];
    assert all[..|all| - 1] == chips;
    PairOfRendered(key, value, "");
  }

  lemma {:induction false} ParseRenderPrefix(args: map<string, string>, keys: seq<string>, n: nat)
    requires forall i :: 0 <= i < |keys| ==> keys[i] in args
    requires WellFormedArgs(args)
    requires n <= |keys|
    ensures ParseExtraArgs(Typed(RenderExtraArgs(args, keys))[..n]) == map k | k in keys[..n] :: args[k]
    decreases n
  {
    var chips := Typed(RenderExtraArgs(args, keys));
    if n == 0 {
      assert chips[..0] == [];
    } else {
      ParseRenderPrefix(args, keys, n - 1);
      assert chips[..n][..n - 1] == chips[..n - 1];
      var k := keys[n - 1];
      assert chips[..n][n - 1] == TextChip(RenderExtraArg(k, args[k]));
      PairOfRendered(k, args[k], "");
      assert keys[..n] == keys[..n - 1] + [k];
    }
  }

  /**
   * Round trip: rendering well-formed arguments and parsing the chips back
   * gives the same arguments.
   */
  lemma ParseRender(args: map<string, string>, keys: seq<string>)
    requires forall k :: k in args <==> k in keys
    requires WellFormedArgs(args)
    ensures ParseExtraArgs(Typed(RenderExtraArgs(args, keys))) == args
  {
    var chips := Typed(RenderExtraArgs(args, keys));
    ParseRenderPrefix(args, keys, |keys|);
    assert chips[..|keys|] == chips;
    assert keys[..|keys|] == keys;
  }
}
