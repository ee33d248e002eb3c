/** The configuration validator of Battle/Config/SkillConfigValidator.cs: a result object that
    accumulates error and warning messages, the checks that fill it, and its text summary. */
module ConfigValidator {
  import opened Common
  import opened ConfigData

  const MSG_NULL_CONFIG: string := "技能配置不能为空"
  const MSG_BAD_ID: string := "技能ID必须大于0"
  const MSG_NEGATIVE_COST: string := "冷却时间不能小于0"
  const MSG_PRIORITY: string := "技能优先级建议设置在1-10之间"
  const MSG_BAD_TARGET_COUNT: string := "最大目标数量必须大于0"
  const MSG_NO_EFFECTS: string := "技能必须至少包含一个效果"

  /** The four hard requirements on a configured skill. */
  predicate Acceptable(c: SkillConfigData)
  {
    c.skillId > 0 && c.revolutionCost >= 0 && c.targetCount > 0 && HasEffects(c)
  }

  /** The priority is outside the recommended range 1..10. */
  predicate PriorityUnusual(c: SkillConfigData)
  {
    c.priority < 1 || c.priority > 10
  }

  /** The errors `ValidateBasicFields` adds, in check order. */
  function BasicErrors(c: SkillConfigData): seq<string>
  {
    (if c.skillId <= 0 then [MSG_BAD_ID] else [])
    + (if c.revolutionCost < 0 then [MSG_NEGATIVE_COST] else [])
    + (if c.targetCount <= 0 then [MSG_BAD_TARGET_COUNT] else [])
  }

  /** The error `ValidateSkillEffects` adds. */
  function EffectErrors(effects: Option<seq<EffectData>>): seq<string>
  {
    if effects.None? || |effects.value| == 0 then [MSG_NO_EFFECTS] else []
  }

  /** Every error `ValidateSkillConfig` reports for a configuration (`None` for null), in order:
      a null configuration gets exactly one error and no other check; otherwise each failed
      requirement contributes exactly one message, so there are at most four, and there are none
      exactly when the configuration is acceptable. */
  function ConfigErrors(config: Option<SkillConfigData>): (errors: seq<string>)
    ensures config.None? ==> errors == [MSG_NULL_CONFIG]
    ensures |errors| <= 4
    ensures errors == [] <==> config.Some? && Acceptable(config.value)
    ensures config.Some? ==>
      (MSG_BAD_ID in errors <==> config.value.skillId <= 0)
      && (MSG_NEGATIVE_COST in errors <==> config.value.revolutionCost < 0)
      && (MSG_BAD_TARGET_COUNT in errors <==> config.value.targetCount <= 0)
      && (MSG_NO_EFFECTS in errors <==> !HasEffects(config.value))
  {
    match config
    case None => [MSG_NULL_CONFIG]
    case Some(c) => BasicErrors(c) + EffectErrors(c.effects)
  }

  /** Every warning `ValidateSkillConfig` reports: at most one, for an unusual priority, and none
      for a null configuration. */
  function ConfigWarnings(config: Option<SkillConfigData>): (warnings: seq<string>)
    ensures |warnings| <= 1
    ensures warnings != [] <==> config.Some? && PriorityUnusual(config.value)
    ensures forall w :: w in warnings ==> w == MSG_PRIORITY
  {
    if config.Some? && PriorityUnusual(config.value) then [MSG_PRIORITY] else []
  }

  /** The priority check warns but never fails a configuration. */
  lemma PriorityNeverFails(c: SkillConfigData, p: int)
    ensures ConfigErrors(Some(c.(priority := p))) == ConfigErrors(Some(c))
    ensures MSG_PRIORITY !in ConfigErrors(Some(c))
  {
    assert BasicErrors(c.(priority := p)) == BasicErrors(c);
    assert HasEffects(c.(priority := p)) == HasEffects(c);
  }

  /** "Pass" or "fail" and the counted, bulleted messages, as `GetSummary` writes them. */
  function SummaryText(errors: seq<string>, warnings: seq<string>): (s: string)
    ensures errors == [] && warnings == [] ==> s == SummaryHeader(true)
    ensures |SummaryHeader(errors == [])| <= |s| && s[..|SummaryHeader(errors == [])|] == SummaryHeader(errors == [])
  {
    SummaryHeader(errors == [])
    + (if |errors| > 0 then "\n错误(" + IntToText(|errors|) + "个):" + Bullets(errors) else "")
    + (if |warnings| > 0 then "\n警告(" + IntToText(|warnings|) + "个):" + Bullets(warnings) else "")
  }

  function SummaryHeader(valid: bool): string
  {
    "验证结果: " + (if valid then "通过" else "失败")
  }

  /** One indented bullet line per message, in order. */
  function Bullets(items: seq<string>): string
  {
    if items == [] then "" else Bullets(items[..|items| - 1]) + "\n  - " + items[|items| - 1]
  }

  /** The summary of a validation reports a pass exactly when the configuration is acceptable. */
  lemma SummaryReportsVerdict(config: Option<SkillConfigData>)
    ensures var s := SummaryText(ConfigErrors(config), ConfigWarnings(config));
      |SummaryHeader(true)| <= |s| && (s[..|SummaryHeader(true)|] == SummaryHeader(true) <==> config.Some? && Acceptable(config.value))
  {
    var s := SummaryText(ConfigErrors(config), ConfigWarnings(config));
    var valid := ConfigErrors(config) == [];
    assert |SummaryHeader(true)| == |SummaryHeader(false)|;
    if !valid {
      assert s[..|SummaryHeader(true)|] == SummaryHeader(false);
      assert SummaryHeader(false)[|SummaryHeader(false)| - 1] != SummaryHeader(true)[|SummaryHeader(true)| - 1];
    }
  }

  /** `ValidationResult`: the messages found so far. */
  class ValidationResult {
    var errors: seq<string>
    var warnings: seq<string>

    /** A result with no messages. */
    constructor ()
      ensures errors == [] && warnings == []
    {
      errors := [];
      warnings := [];
    }

    /** `IsValid`. */
    predicate IsValid()
      reads this
    {
      |errors| == 0
    }

    /** `HasWarnings`. */
    predicate HasWarnings()
      reads this
    {
      |warnings| > 0
    }

    method AddError(error: string)
      modifies this
      ensures errors == old(errors) + [error] && warnings == old(warnings)
    {
      errors := errors + [error];
    }

    method AddWarning(warning: string)
      modifies this
      ensures warnings == old(warnings) + [warning] && errors == old(errors)
    {
      warnings := warnings + [warning];
    }

    /** `GetSummary`: the verdict line, then each list with its count. */
    method GetSummary() returns (summary: string)
      ensures summary == SummaryText(errors, warnings)
    {
      summary := SummaryHeader(IsValid());
      if |errors| > 0 {
        var listed := "\n错误(" + IntToText(|errors|) + "个):";
        for i := 0 to |errors|
          invariant listed == "\n错误(" + IntToText(|errors|) + "个):" + Bullets(errors[..i])
        {
          assert errors[..i + 1][..i] == errors[..i];
          listed := listed + "\n  - " + errors[i];
        }
        assert errors[..|errors|] == errors;
        summary := summary + listed;
      }
      if |warnings| > 0 {
        var listed := "\n警告(" + IntToText(|warnings|) + "个):";
        for i := 0 to |warnings|
          invariant listed == "\n警告(" + IntToText(|warnings|) + "个):" + Bullets(warnings[..i])
        {
          assert warnings[..i + 1][..i] == warnings[..i];
          listed := listed + "\n  - " + warnings[i];
        }
        assert warnings[..|warnings|] == warnings;
        summary := summary + listed;
      }
    }
  }

  /** `ValidateSkillConfig`: a fresh result holding exactly the errors and warnings of the
      configuration, in check order. */
  method ValidateSkillConfig(config: Option<SkillConfigData>) returns (result: ValidationResult)
    ensures fresh(result)
    ensures result.errors == ConfigErrors(config) && result.warnings == ConfigWarnings(config)
  {
    result := new ValidationResult();
    if config.None? {
      result.AddError(MSG_NULL_CONFIG);
      return;
    }
    ValidateBasicFields(config.value, result);
    ValidateSkillEffects(config.value.effects, result);
  }

  /** `ValidateBasicFields`: id, cost and target-count errors and the priority warning. */
  method ValidateBasicFields(c: SkillConfigData, result: ValidationResult)
    modifies result
    ensures result.errors == old(result.errors) + BasicErrors(c)
    ensures result.warnings == old(result.warnings) + ConfigWarnings(Some(c))
  {
    if c.skillId <= 0 {
      result.AddError(MSG_BAD_ID);
    }
    if c.revolutionCost < 0 {
      result.AddError(MSG_NEGATIVE_COST);
    }
    if c.priority < 1 || c.priority > 10 {
      result.AddWarning(MSG_PRIORITY);
    }
    if c.targetCount <= 0 {
      result.AddError(MSG_BAD_TARGET_COUNT);
    }
  }

  /** `ValidateSkillEffects`: one error for a null or empty effect list. */
  method ValidateSkillEffects(effects: Option<seq<EffectData>>, result: ValidationResult)
    modifies result
    ensures result.errors == old(result.errors) + EffectErrors(effects)
    ensures result.warnings == old(result.warnings)
  {
    if effects.None? || |effects.value| == 0 {
      result.AddError(MSG_NO_EFFECTS);
      return;
    }
  }
}
