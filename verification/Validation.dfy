/** The checks a proposed command passes before it is written to the log, and which of the commands that pass are refused when applied. */
module Validation {
  import opened Wrappers
  import opened Command
  import opened KvStore
  import opened Replica
  import C = Counterexample

  datatype Limits = Limits(maxKey: nat, maxValue: nat, maxCommand: nat)

  const DEFAULTS := Limits(256, 64 * 1024, 1024 * 1024)

  datatype Verdict = Accepted | Invalid | KeyEmpty | KeyDelimited | KeyTooLong | ValueDelimited | ValueTooLong | TextEmpty | TextTooLong

  function ValidateKey(l: Limits, key: string): Verdict {
    if key == "" then KeyEmpty
    else if '|' in key then KeyDelimited
    else if |key| > l.maxKey then KeyTooLong
    else Accepted
  }

  function ValidateValue(l: Limits, value: string): Verdict {
    if '|' in value then ValueDelimited else if |value| > l.maxValue then ValueTooLong else Accepted
  }

  function ValidateText(l: Limits, text: string): Verdict {
    if text == "" then TextEmpty else if |text| > l.maxCommand then TextTooLong else Accepted
  }

  function Validate(l: Limits, c: Command): Verdict {
    if !IsValid(c) then Invalid
    else
      var key := ValidateKey(l, c.key);
      if key != Accepted then key
      else
        var value := if c.Set? then ValidateValue(l, c.value) else Accepted;
        if value != Accepted then value else ValidateText(l, Serialize(c))
  }

  /** The bytes the text form adds to key and value. */
  function Length(c: Command): nat
    requires !c.Unknown?
  {
    5 + |c.key| + if c.Set? then |c.value| else 0
  }

  /** Every command that passes is transportable or a Set of an empty value, and within the limits; every such command passes. */
  lemma ValidateDecides(l: Limits, c: Command)
    ensures Validate(l, c) == Accepted <==>
            && (Transportable(c) || (c.Set? && c.value == "" && Transportable(Delete(c.key))))
            && |c.key| <= l.maxKey && (c.Set? ==> |c.value| <= l.maxValue) && Length(c) <= l.maxCommand
  {
  }

  /** The key passes its own checks. */
  predicate KeyPasses(l: Limits, c: Command) { !c.Unknown? && c.key != "" && '|' !in c.key && |c.key| <= l.maxKey }

  /** The value does, where there is one. */
  predicate ValuePasses(l: Limits, c: Command) { c.Set? ==> '|' !in c.value && |c.value| <= l.maxValue }

  /** Every refusal names its cause; two of the verdicts are never given, since a command without a key is invalid and no text is empty. */
  lemma WhyRefused(l: Limits, c: Command)
    ensures var v := Validate(l, c);
            && (v == Invalid <==> c.Unknown? || c.key == "")
            && (v == KeyDelimited <==> !c.Unknown? && '|' in c.key)
            && (v == KeyTooLong <==> !c.Unknown? && '|' !in c.key && c.key != "" && |c.key| > l.maxKey)
            && (v == ValueDelimited <==> KeyPasses(l, c) && c.Set? && '|' in c.value)
            && (v == ValueTooLong <==> KeyPasses(l, c) && c.Set? && '|' !in c.value && |c.value| > l.maxValue)
            && (v == TextTooLong <==> KeyPasses(l, c) && ValuePasses(l, c) && Length(c) > l.maxCommand)
            && v != KeyEmpty && v != TextEmpty
  {
  }

  /** With the default limits the size of the text never decides. */
  lemma DefaultTextFits(c: Command)
    requires IsValid(c) && |c.key| <= DEFAULTS.maxKey && (c.Set? ==> |c.value| <= DEFAULTS.maxValue)
    ensures ValidateText(DEFAULTS, Serialize(c)) == Accepted && Validate(DEFAULTS, c) != TextTooLong
  {
  }

  /**
    Of the commands that pass validation, exactly the Sets of an empty value are refused by the state machine, in every state; all others do
    what they say. Committing one of the former stops every replica for good (RefusedBlocksEveryone).
   */
  lemma EmptyValueBlocks(l: Limits, c: Command)
    requires Validate(l, c) == Accepted
    ensures Refused(EFFECT, Serialize(c)) <==> c.Set? && c.value == ""
    ensures !Refused(EFFECT, Serialize(c)) ==>
              forall kv {:trigger EFFECT(kv, Serialize(c))} ::
                EFFECT(kv, Serialize(c)) == Some(if c.Set? then kv[c.key := c.value] else kv - {c.key})
  {
    ValidateDecides(l, c);
    if Transportable(c) {
      forall kv ensures EFFECT(kv, Serialize(c)) == Some(if c.Set? then kv[c.key := c.value] else kv - {c.key}) {
        TransportFaithful(kv, c);
      }
      assert EFFECT(map[], Serialize(c)).Some?;
    } else {
      EmptyValueRefused(c.key);
      ReservedTexts(c);
    }
  }

  /** There is such a command for every key that passes. */
  lemma EmptyValuePasses(l: Limits, key: string)
    requires ValidateKey(l, key) == Accepted && |key| + 5 <= l.maxCommand
    ensures Validate(l, Set(key, "")) == Accepted && Refused(EFFECT, Serialize(Set(key, "")))
  {
    EmptyValueBlocks(l, Set(key, ""));
  }

  /** The records of the counterexample are commands a leader accepts with the default limits. */
  lemma CounterexampleProposable(n: nat)
    requires n <= C.MAX_VALUE_BYTES
    ensures C.SetOf(n).command == Serialize(Set("k", C.Filled(n))) && Validate(DEFAULTS, Set("k", C.Filled(n))) == Accepted
    ensures C.Y.command == Serialize(Set("k", "v")) && Validate(DEFAULTS, Set("k", "v")) == Accepted
  {
    var value := C.Filled(n);
    assert forall i :: 0 <= i < n ==> value[i] == 'x';
    assert '|' !in value;
    ValidateDecides(DEFAULTS, Set("k", value));
    ValidateDecides(DEFAULTS, Set("k", "v"));
  }
}
