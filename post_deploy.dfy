/**
 * The post-deploy HTTP script (public/post-deploy.php): a token gate, a
 * check that the application is present, the `.env.local` step, a fixed
 * list of maintenance commands whose failures are collected, and a JSON
 * answer that reports success or the collected errors.
 *
 * The shell is the function `shell`: the result (output lines and return
 * code) of running one command line. The file system is what the script
 * asks of it (`DeployFiles`); what it writes to `.env.local` is returned.
 */
module PostDeploy {
  import opened Wrappers
  import opened EnvLocal

  // The token gate (lines 12-21).

  /** The four places the script reads a token from; `None` is an unset key. */
  datatype TokenSources = TokenSources(
    envToken: Option<string>,      // $_ENV['POST_DEPLOY_TOKEN']
    serverToken: Option<string>,   // $_SERVER['POST_DEPLOY_TOKEN']
    queryToken: Option<string>,    // $_GET['token']
    headerToken: Option<string>)   // $_SERVER['HTTP_X_DEPLOY_TOKEN']

  /** PHP's `??`: the first operand unless it is unset. */
  function Coalesce(a: Option<string>, b: Option<string>): Option<string> {
    if a.Some? then a else b
  }

  /** PHP truthiness of a string or null: `null`, `""` and `"0"` are false. */
  predicate Truthy(v: Option<string>) {
    v.Some? && v.value != "" && v.value != "0"
  }

  function RequiredToken(t: TokenSources): Option<string> {
    Coalesce(t.envToken, t.serverToken)
  }

  function ProvidedToken(t: TokenSources): Option<string> {
    Coalesce(t.queryToken, t.headerToken)
  }

  /** `$requiredToken && $providedToken !== $requiredToken` */
  predicate TokenRejected(t: TokenSources) {
    Truthy(RequiredToken(t)) && ProvidedToken(t) != RequiredToken(t)
  }

  /** The query parameter wins over the header; the environment wins over the server variables. */
  lemma TokenPrecedence(t: TokenSources)
    ensures t.queryToken.Some? ==> ProvidedToken(t) == t.queryToken
    ensures t.queryToken.None? ==> ProvidedToken(t) == t.headerToken
    ensures t.envToken.Some? ==> RequiredToken(t) == t.envToken
    ensures t.envToken.None? ==> RequiredToken(t) == t.serverToken
  {
  }

  /**
   * An unset, empty or `"0"` required token switches the gate off; any
   * other required token lets through exactly the identical provided one.
   */
  lemma TokenGate(t: TokenSources)
    ensures RequiredToken(t) in {None, Some(""), Some("0")} ==> !TokenRejected(t)
    ensures RequiredToken(t) !in {None, Some(""), Some("0")} ==>
              (TokenRejected(t) <==> ProvidedToken(t) != RequiredToken(t))
  {
  }

  // Running one command (lines 40-48).

  /** What `exec` reports for one command line: its output lines and its return code. */
  datatype ExecResult = ExecResult(lines: seq<string>, returnCode: int)

  function ExecutionLine(command: string): string {
    "Exécution: " + command
  }

  function ErrorLine(command: string): string {
    "Erreur lors de l'exécution de: " + command
  }

  /** The command line `exec` runs: the command with its error stream joined to its output. */
  function ShellLine(command: string): string {
    command + " 2>&1"
  }

  /** `runCommand($command, $output, $errors)`; the two arrays passed by reference are in and out parameters. */
  method RunCommand(command: string, shell: string -> ExecResult, output: seq<string>, errors: seq<string>)
    returns (succeeded: bool, output': seq<string>, errors': seq<string>)
    ensures output' == output + [ExecutionLine(command)] + shell(ShellLine(command)).lines
    ensures errors' == errors + (if shell(ShellLine(command)).returnCode != 0 then [ErrorLine(command)] else [])
    ensures succeeded <==> shell(ShellLine(command)).returnCode == 0
  {
    output' := output + [ExecutionLine(command)];
    var result := shell(ShellLine(command));
    output' := output' + result.lines;
    errors' := errors;
    if result.returnCode != 0 {
      errors' := errors' + [ErrorLine(command)];
    }
    succeeded := result.returnCode == 0;
  }

  /** The error lines the commands `cmds`, run in order, leave behind. */
  function FailureNotes(cmds: seq<string>, shell: string -> ExecResult): seq<string> {
    if cmds == [] then []
    else
      var last := cmds[|cmds| - 1];
      FailureNotes(cmds[..|cmds| - 1], shell)
      + (if shell(ShellLine(last)).returnCode != 0 then [ErrorLine(last)] else [])
  }

  /** The command `cmds[i]` succeeded. */
  predicate Succeeded(cmds: seq<string>, shell: string -> ExecResult, i: int)
    requires 0 <= i < |cmds|
  {
    shell(ShellLine(cmds[i])).returnCode == 0
  }

  /**
   * The error list holds one line per failed command, so it is empty
   * exactly when every command succeeded.
   */
  lemma {:induction false} FailureNotesEmpty(cmds: seq<string>, shell: string -> ExecResult)
    ensures |FailureNotes(cmds, shell)| <= |cmds|
    ensures FailureNotes(cmds, shell) == [] <==> forall i | 0 <= i < |cmds| :: Succeeded(cmds, shell, i)
  {
    if cmds != [] {
      var init := cmds[..|cmds| - 1];
      FailureNotesEmpty(init, shell);
      if forall i | 0 <= i < |cmds| :: Succeeded(cmds, shell, i) {
        assert forall i | 0 <= i < |init| :: Succeeded(init, shell, i) by {
          forall i | 0 <= i < |init| ensures Succeeded(init, shell, i) {
            assert Succeeded(cmds, shell, i);
          }
        }
      }
      if forall i | 0 <= i < |init| :: Succeeded(init, shell, i) {
        if Succeeded(cmds, shell, |cmds| - 1) {
          forall i | 0 <= i < |cmds| ensures Succeeded(cmds, shell, i) {
            if i < |init| { assert Succeeded(init, shell, i); }
          }
        }
      }
    }
  }

  // The whole script (lines 50-133).

  /** What the script asks of the file system. `envLocal` is the content of `.env.local`, if it exists. */
  datatype DeployFiles = DeployFiles(
    consoleExists: bool,
    envLocal: Option<string>,
    composerJsonExists: bool,
    vendorIsDir: bool)

  /** The JSON answers; `success` is implied by the constructor. */
  datatype DeployBody =
    | TokenError(error: string)
    | ConsoleMissing(error: string, output: seq<string>)
    | Completed(message: string, output: seq<string>)
    | CompletedWithErrors(message: string, errors: seq<string>, output: seq<string>)

  datatype DeployResponse = DeployResponse(status: int, body: DeployBody)

  const TokenErrorMessage := "Token invalide ou manquant"
  const ConsoleMissingMessage := "bin/console introuvable"
  const SuccessMessage := "Post-déploiement terminé avec succès"
  const FailureMessage := "Post-déploiement terminé avec des erreurs"

  const CreatingEnvLine := "\U{1F4DD} Création du fichier .env.local..."
  const UpdatingEnvLine := "\U{1F4DD} Mise à jour de .env.local..."
  const ComposerLine := "\U{1F4E6} Installation des dépendances Composer..."
  const PermissionsLine := "\U{1F510} Configuration des permissions..."
  const DatabaseLine := "\U{1F5C4}\U{FE0F}  Mise à jour de la base de données..."
  const CacheClearLine := "\U{1F5D1}\U{FE0F}  Nettoyage du cache..."
  const WarmupLine := "\U{1F525} Réchauffage du cache..."
  const DoneLine := "✅ Post-déploiement terminé avec succès!"

  /** The two lines every run past the gate starts its output with. */
  function StartLines(appDir: string): seq<string> {
    ["\U{1F680} Démarrage du post-déploiement automatique...",
     "\U{1F4C1} Répertoire: " + appDir]
  }

  const ComposerArgs := "composer install --no-dev --optimize-autoloader --no-interaction"
  const MigrateArgs := "php bin/console doctrine:migrations:migrate --no-interaction --env=prod 2>&1"
    + " || php bin/console doctrine:schema:update --force --no-interaction --env=prod 2>&1"
  const CacheClearArgs := "php bin/console cache:clear --env=prod --no-debug"
  const WarmupArgs := "php bin/console cache:warmup --env=prod --no-debug"

  /** A command run from the application directory. */
  function InAppDir(appDir: string, args: string): string {
    "cd " + appDir + " && " + args
  }

  function ComposerCommand(appDir: string): string { InAppDir(appDir, ComposerArgs) }
  function MigrateCommand(appDir: string): string { InAppDir(appDir, MigrateArgs) }
  function CacheClearCommand(appDir: string): string { InAppDir(appDir, CacheClearArgs) }
  function WarmupCommand(appDir: string): string { InAppDir(appDir, WarmupArgs) }

  /** Dependencies are installed when there is a `composer.json` and no `vendor` directory. */
  predicate NeedsInstall(files: DeployFiles) {
    files.composerJsonExists && !files.vendorIsDir
  }

  /** The commands a run past the checks executes, in order: a failure does not stop the later ones. */
  function PlannedCommands(appDir: string, files: DeployFiles): seq<string> {
    (if NeedsInstall(files) then [ComposerCommand(appDir)] else [])
    + [MigrateCommand(appDir), CacheClearCommand(appDir), WarmupCommand(appDir)]
  }

  /** Running `c` after `cmds` adds the error line of `c` if it failed. */
  lemma FailureNotesSnoc(cmds: seq<string>, c: string, shell: string -> ExecResult)
    ensures FailureNotes(cmds + [c], shell) ==
              FailureNotes(cmds, shell) + (if shell(ShellLine(c)).returnCode != 0 then [ErrorLine(c)] else [])
  {
    assert (cmds + [c])[..|cmds|] == cmds;
  }

  /** Every command of `cmds` has its execution line in `output`. */
  predicate Logged(cmds: seq<string>, output: seq<string>) {
    forall i | 0 <= i < |cmds| :: ExecutionLine(cmds[i]) in output
  }

  /** Running `c` logs it, and lines already in the output stay there. */
  lemma LoggedSnoc(cmds: seq<string>, c: string, output: seq<string>, output': seq<string>)
    requires Logged(cmds, output) && output <= output'
    requires ExecutionLine(c) in output'
    ensures Logged(cmds + [c], output')
  {
    forall i | 0 <= i < |cmds| + 1 ensures ExecutionLine((cmds + [c])[i]) in output' {
      if i < |cmds| {
        assert ExecutionLine(cmds[i]) in output;
      }
    }
  }

  /** Step 2 (lines 66-81): the `.env.local` file, with its progress line. */
  method EnsureProductionEnv(existing: Option<string>, output: seq<string>)
    returns (output': seq<string>, written: Option<string>)
    ensures written == EnvLocalWrite(existing)
    ensures output' == output + (if existing.None? then [CreatingEnvLine]
                                 else if written.Some? then [UpdatingEnvLine] else [])
    ensures output' == output + EnvProgressLines(existing)
  {
    output', written := output, None;
    if existing.None? {
      output' := output' + [CreatingEnvLine];
      written := Some(DefaultEnv);
    } else {
      var envContent := existing.value;
      if !Contains(envContent, ProdMarker) {
        output' := output' + [UpdatingEnvLine];
        written := NormalizeEnv(envContent);
      }
    }
  }

  /** The lines one maintenance step appends: its progress lines, then those of `runCommand`. */
  function StepLines(progress: seq<string>, command: string, shell: string -> ExecResult): seq<string> {
    progress + [ExecutionLine(command)] + shell(ShellLine(command)).lines
  }

  /** The lines of steps 4 to 6 (lines 89-113), in the order the script appends them. */
  function UpkeepLines(appDir: string, shell: string -> ExecResult): seq<string> {
    StepLines([PermissionsLine, DatabaseLine], MigrateCommand(appDir), shell)
    + StepLines([CacheClearLine], CacheClearCommand(appDir), shell)
    + StepLines([WarmupLine], WarmupCommand(appDir), shell)
  }

  /** The lines of steps 3 to 6 (lines 83-113): the composer step only when it is needed. */
  function MaintenanceLines(appDir: string, files: DeployFiles, shell: string -> ExecResult): seq<string> {
    (if NeedsInstall(files) then StepLines([ComposerLine], ComposerCommand(appDir), shell) else [])
    + UpkeepLines(appDir, shell)
  }

  /** The progress line of the `.env.local` step (lines 66-81), if any. */
  function EnvProgressLines(existing: Option<string>): seq<string> {
    if existing.None? then [CreatingEnvLine]
    else if !Contains(existing.value, ProdMarker) then [UpdatingEnvLine]
    else []
  }

  /** `a + b + c` read either way. */
  lemma AppendThree(a: seq<string>, b: seq<string>, c: seq<string>)
    ensures a + b + c == a + (b + c)
  {
  }

  /**
   * One step of the maintenance part: its progress lines, then the command
   * through `runCommand`, extending the commands run so far.
   */
  method RunStep(progress: seq<string>, command: string, shell: string -> ExecResult,
                 output: seq<string>, errors: seq<string>, executed: seq<string>)
    returns (output': seq<string>, errors': seq<string>, executed': seq<string>)
    requires errors == FailureNotes(executed, shell) && Logged(executed, output)
    ensures executed' == executed + [command]
    ensures output' == output + StepLines(progress, command, shell)
    ensures output <= output'
    ensures errors' == FailureNotes(executed', shell) && Logged(executed', output')
  {
    var ok;
    ok, output', errors' := RunCommand(command, shell, output + progress, errors);
    assert output'[|output + progress|] == ExecutionLine(command);
    LoggedSnoc(executed, command, output, output');
    FailureNotesSnoc(executed, command, shell);
    executed' := executed + [command];
  }

  /**
   * Steps 4 to 6 (lines 89-113), which every run reaches: permissions,
   * database migration, cache clearing and warm-up.
   */
  method RunUpkeep(appDir: string, shell: string -> ExecResult,
                   output: seq<string>, errors: seq<string>, executed: seq<string>)
    returns (output': seq<string>, errors': seq<string>, executed': seq<string>)
    requires errors == FailureNotes(executed, shell) && Logged(executed, output)
    ensures executed' == executed + [MigrateCommand(appDir), CacheClearCommand(appDir), WarmupCommand(appDir)]
    ensures errors' == FailureNotes(executed', shell)
    ensures output' == output + UpkeepLines(appDir, shell)
    ensures output <= output'
    ensures Logged(executed', output')
  {
    output', errors', executed' :=
      RunStep([PermissionsLine, DatabaseLine], MigrateCommand(appDir), shell, output, errors, executed);
    ghost var mid := output';
    output', errors', executed' :=
      RunStep([CacheClearLine], CacheClearCommand(appDir), shell, output', errors', executed');
    ghost var late := output';
    output', errors', executed' := RunStep([WarmupLine], WarmupCommand(appDir), shell, output', errors', executed');
    assert output <= mid <= late <= output';
    ghost var s1 := StepLines([PermissionsLine, DatabaseLine], MigrateCommand(appDir), shell);
    ghost var s2 := StepLines([CacheClearLine], CacheClearCommand(appDir), shell);
    ghost var s3 := StepLines([WarmupLine], WarmupCommand(appDir), shell);
    AppendThree(output, s1, s2);
    AppendThree(output, s1 + s2, s3);
  }

  /**
   * Steps 3 to 6 (lines 83-113): the commands, each one run whatever the
   * previous ones returned, with their progress lines.
   */
  method RunMaintenance(appDir: string, files: DeployFiles, shell: string -> ExecResult, output: seq<string>)
    returns (output': seq<string>, errors: seq<string>, executed: seq<string>)
    ensures executed == PlannedCommands(appDir, files)
    ensures errors == FailureNotes(executed, shell)
    ensures output' == output + MaintenanceLines(appDir, files, shell)
    ensures output <= output'
    ensures Logged(executed, output')
  {
    output', errors, executed := output, [], [];
    if NeedsInstall(files) {
      output', errors, executed := RunStep([ComposerLine], ComposerCommand(appDir), shell, output', errors, executed);
    }
    ghost var installed := output';
    output', errors, executed := RunUpkeep(appDir, shell, output', errors, executed);
    assert output <= installed <= output';
    ghost var first := if NeedsInstall(files) then StepLines([ComposerLine], ComposerCommand(appDir), shell) else [];
    assert installed == output + first;
    AppendThree(output, first, UpkeepLines(appDir, shell));
  }

  /** The answer (lines 118-133): success with the default status 200, or 500 with the errors. */
  method Respond(output: seq<string>, errors: seq<string>) returns (response: DeployResponse)
    ensures errors == [] ==> response == DeployResponse(200, Completed(SuccessMessage, output + [DoneLine]))
    ensures errors != [] ==> response == DeployResponse(500, CompletedWithErrors(FailureMessage, errors, output))
  {
    if errors == [] {
      response := DeployResponse(200, Completed(SuccessMessage, output + [DoneLine]));
    } else {
      response := DeployResponse(500, CompletedWithErrors(FailureMessage, errors, output));
    }
  }

  /**
   * One request to the script: the response, what it wrote to `.env.local`
   * and the commands it ran.
   */
  method Deploy(tokens: TokenSources, appDir: string, files: DeployFiles, shell: string -> ExecResult)
    returns (response: DeployResponse, written: Option<string>, executed: seq<string>)
    ensures TokenRejected(tokens) ==>
              response == DeployResponse(403, TokenError(TokenErrorMessage)) && written == None && executed == []
    ensures !TokenRejected(tokens) && !files.consoleExists ==>
              response == DeployResponse(500, ConsoleMissing(ConsoleMissingMessage, StartLines(appDir)))
              && written == None && executed == []
    ensures !TokenRejected(tokens) && files.consoleExists ==>
              && written == EnvLocalWrite(files.envLocal)
              && executed == PlannedCommands(appDir, files)
              && (response.body.Completed? || response.body.CompletedWithErrors?)
              && StartLines(appDir) <= response.body.output
              && Logged(executed, response.body.output)
              && (response.status == 200 <==> forall i | 0 <= i < |executed| :: Succeeded(executed, shell, i))
    ensures !TokenRejected(tokens) && files.consoleExists ==>
              var errors := FailureNotes(executed, shell);
              && response.body.output ==
                   StartLines(appDir) + EnvProgressLines(files.envLocal) + MaintenanceLines(appDir, files, shell)
                   + (if errors == [] then [DoneLine] else [])
              && if errors == [] then
                   response.status == 200 && response.body == Completed(SuccessMessage, response.body.output)
                   && response.body.output[|response.body.output| - 1] == DoneLine
                 else
                   response.status == 500
                   && response.body == CompletedWithErrors(FailureMessage, errors, response.body.output)
  {
    if TokenRejected(tokens) {
      return DeployResponse(403, TokenError(TokenErrorMessage)), None, [];
    }
    var output := StartLines(appDir);
    if !files.consoleExists {
      return DeployResponse(500, ConsoleMissing(ConsoleMissingMessage, output)), None, [];
    }
    output, written := EnsureProductionEnv(files.envLocal, output);
    var errors;
    output, errors, executed := RunMaintenance(appDir, files, shell, output);
    response := Respond(output, errors);
    FailureNotesEmpty(executed, shell);
  }
}
