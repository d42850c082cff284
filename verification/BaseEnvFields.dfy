/** Which env key each field of an account ends up under in the live file, key by key. */
module BaseEnvFields {
  import opened Wrappers
  import opened Json
  import opened BaseEnv
  import opened BaseEnvHome
  import opened BaseEnvCells
  import opened BaseEnvTheorems

  /** The live value of a key a profile field owns: the account's own env outranks the field, and a key
      without either is gone once the apply lands. */
  predicate FieldIsLive(disk: Disk, job: Job, key: Key, field: Option<string>)
    requires job.Apply?
  {
    var live, env := CellOf(AfterJob(disk, job, 3), key).live, job.account.env;
    && (key in env ==> live == Some(Str(env[key])))
    && (key !in env && field.Some? ==> live == Some(Str(field.value)))
    && (key !in env && field.None? && Lands(disk, job) ==> live == None)
  }

  /** An apply that does not fail leaves each field under its own key. */
  lemma EachFieldUnderItsKey(disk: Disk, job: Job)
    requires job.Apply? && PlanJob(disk, job).Ok?
    ensures FieldIsLive(disk, job, "ANTHROPIC_BASE_URL", job.account.fields.baseUrl)
    ensures FieldIsLive(disk, job, "ANTHROPIC_DEFAULT_OPUS_MODEL", job.account.fields.opus)
    ensures FieldIsLive(disk, job, "ANTHROPIC_DEFAULT_SONNET_MODEL", job.account.fields.sonnet)
    ensures FieldIsLive(disk, job, "ANTHROPIC_DEFAULT_HAIKU_MODEL", job.account.fields.haiku)
    ensures FieldIsLive(disk, job, "ANTHROPIC_DEFAULT_FABLE_MODEL", job.account.fields.fable)
    ensures FieldIsLive(disk, job, "CLAUDE_CODE_SUBAGENT_MODEL", job.account.fields.subagent)
  {
    var fields := job.account.fields;
    FieldLands(disk, job, BASE_URL, fields.baseUrl);
    FieldLands(disk, job, OPUS_MODEL, fields.opus);
    FieldLands(disk, job, SONNET_MODEL, fields.sonnet);
    FieldLands(disk, job, HAIKU_MODEL, fields.haiku);
    FieldLands(disk, job, FABLE_MODEL, fields.fable);
    FieldLands(disk, job, SUBAGENT_MODEL, fields.subagent);
  }

  lemma FieldLands(disk: Disk, job: Job, key: Key, field: Option<string>)
    requires job.Apply? && PlanJob(disk, job).Ok?
    requires key in FIELD_KEYS && key != EFFORT_LEVEL && FieldFor(job.account.fields, key) == field
    ensures FieldIsLive(disk, job, key, field)
  {
    ApplyServesAccount(disk, job, key);
    if Lands(disk, job) {
      FieldKeyAfter(disk, job, 3, key);
    }
  }

  /** The effort is always there once an apply lands, empty when nothing sets it; an effort field that is set
      is the live value unless the account's own env names the key. */
  lemma EffortIsLive(disk: Disk, job: Job)
    requires job.Apply? && PlanJob(disk, job).Ok?
    ensures var key, account := "CLAUDE_CODE_EFFORT_LEVEL", job.account;
      var live := CellOf(AfterJob(disk, job, 3), key).live;
      && (key in account.env ==> live == Some(Str(account.env[key])))
      && (key !in account.env && account.effort.Some? ==> live == Some(Str(account.effort.value)))
      && (key !in account.env && account.effort.None? && Lands(disk, job) ==> live == Some(Str("")))
  {
    ApplyServesAccount(disk, job, EFFORT_LEVEL);
    if Lands(disk, job) {
      FieldKeyAfter(disk, job, 3, EFFORT_LEVEL);
    }
  }

  /** The auth token is never left from another account. */
  lemma AuthTokenIsGone(disk: Disk, job: Job)
    requires job.Apply? && Lands(disk, job) && "ANTHROPIC_AUTH_TOKEN" !in job.account.env
    ensures CellOf(AfterJob(disk, job, 3), "ANTHROPIC_AUTH_TOKEN").live == None
  {
    assert |AUTH_TOKEN| == 20 && |EFFORT_LEVEL| == 24;
    FieldKeyAfter(disk, job, 3, AUTH_TOKEN);
  }
}
