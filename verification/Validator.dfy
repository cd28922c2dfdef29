/** The deterministic guard between an untrusted proposal and the automation. */
module Validator {
  import opened Text

  // ------------------------------------------------------------------ vocabulary

  datatype SubCause =
    | TransientFailure | BadDeploy | BadConfig | ApplicationPanic | OomAdjacent | UnknownCause
    | OtherCause(word: string)

  datatype Response = RestartPod | RolloutUndo | EscalateToHuman | OtherResponse(word: string)

  datatype Kind = Pod | Deployment | OtherKind(word: string)

  function Word(r: Response): string {
    match r
    case RestartPod => "restart_pod"
    case RolloutUndo => "rollout_undo"
    case EscalateToHuman => "escalate_to_human"
    case OtherResponse(word) => word
  }

  function ReadResponse(s: string): Response {
    if s == "restart_pod" then RestartPod
    else if s == "rollout_undo" then RolloutUndo
    else if s == "escalate_to_human" then EscalateToHuman
    else OtherResponse(s)
  }

  function CauseWord(c: SubCause): string {
    match c
    case TransientFailure => "transient_failure"
    case BadDeploy => "bad_deploy"
    case BadConfig => "bad_config"
    case ApplicationPanic => "application_panic"
    case OomAdjacent => "oom_adjacent"
    case UnknownCause => "unknown"
    case OtherCause(word) => word
  }

  function ReadSubCause(s: string): SubCause {
    if s == "transient_failure" then TransientFailure
    else if s == "bad_deploy" then BadDeploy
    else if s == "bad_config" then BadConfig
    else if s == "application_panic" then ApplicationPanic
    else if s == "oom_adjacent" then OomAdjacent
    else if s == "unknown" then UnknownCause
    else OtherCause(s)
  }

  function KindWord(k: Kind): string {
    match k
    case Pod => "Pod"
    case Deployment => "Deployment"
    case OtherKind(word) => word
  }

  function ReadKind(s: string): Kind {
    if s == "Pod" then Pod else if s == "Deployment" then Deployment else OtherKind(s)
  }

  /** The phrases looked for in the evidence. */
  datatype Sign =
    | ConnectionRefused | FailedToConnect | TemporarilyUnavailable | TemporaryNetworkFailure
    | TimeoutSign | NetworkFailure
    | ImagePullBackOff | FailedToPullImage | InvalidImage | InvalidVersion | BackOffPullingImage | BackOffRestarting
    | DeploymentUpdated | DeploymentRollout | RolloutWord | NewRevision | RevisionWord | ReplicaSetCreatedSpaced
    | ReplicaSetCreated | ScaledUpReplicaSet | NewImageDeployed | DeploymentChanged
    | ConfigMapWord | MissingEnvironment | MissingEnv | RequiredVariable | InvalidConfiguration
    | OomKilled | OutOfMemory | ExceededMemory | ExitCode137
    | PanicWord | Goroutine | FatalError

  function Phrase(sign: Sign): string {
    match sign
    case ConnectionRefused => "connection refused"
    case FailedToConnect => "failed to connect"
    case TemporarilyUnavailable => "temporarily unavailable"
    case TemporaryNetworkFailure => "temporary network failure"
    case TimeoutSign => "timeout"
    case NetworkFailure => "network failure"
    case ImagePullBackOff => "imagepullbackoff"
    case FailedToPullImage => "failed to pull image"
    case InvalidImage => "invalid image"
    case InvalidVersion => "invalid-version"
    case BackOffPullingImage => "back-off pulling image"
    case BackOffRestarting => "back-off restarting failed container"
    case DeploymentUpdated => "deployment updated"
    case DeploymentRollout => "deployment rollout"
    case RolloutWord => "rollout"
    case NewRevision => "new revision"
    case RevisionWord => "revision"
    case ReplicaSetCreatedSpaced => "replica set created"
    case ReplicaSetCreated => "replicaset created"
    case ScaledUpReplicaSet => "scaled up replica set"
    case NewImageDeployed => "new image deployed"
    case DeploymentChanged => "deployment changed"
    case ConfigMapWord => "configmap"
    case MissingEnvironment => "missing environment"
    case MissingEnv => "missing env"
    case RequiredVariable => "required environment variable"
    case InvalidConfiguration => "invalid configuration"
    case OomKilled => "oomkilled"
    case OutOfMemory => "out of memory"
    case ExceededMemory => "exceeded available memory"
    case ExitCode137 => "exit code 137"
    case PanicWord => "panic"
    case Goroutine => "goroutine"
    case FatalError => "fatal error"
  }

  /** Which phrases the lower-cased logs and events contain. */
  type Evidence = Sign -> bool

  function EvidenceOf(lower: string -> string, logs: string, events: seq<string>): Evidence {
    var text := lower(logs + " " + Join(events));
    sign => Contains(text, Phrase(sign))
  }

  predicate HasTransientSign(has: Evidence) {
    || has(ConnectionRefused) || has(FailedToConnect) || has(TemporarilyUnavailable)
    || has(TemporaryNetworkFailure) || has(TimeoutSign) || has(NetworkFailure)
  }

  predicate HasDeploySign(has: Evidence) {
    || has(ImagePullBackOff) || has(FailedToPullImage) || has(InvalidImage)
    || has(InvalidVersion) || has(BackOffPullingImage) || has(BackOffRestarting)
  }

  predicate HasRecentDeployment(has: Evidence) {
    || has(DeploymentUpdated) || has(DeploymentRollout) || has(RolloutWord) || has(NewRevision) || has(RevisionWord)
    || has(ReplicaSetCreatedSpaced) || has(ReplicaSetCreated) || has(ScaledUpReplicaSet) || has(NewImageDeployed)
        || has(DeploymentChanged)
  }

  predicate HasConfigSign(has: Evidence) {
    has(ConfigMapWord) || has(MissingEnvironment) || has(MissingEnv) || has(RequiredVariable)
        || has(InvalidConfiguration)
  }

  predicate HasMemorySign(has: Evidence) {
    has(OomKilled) || has(OutOfMemory) || has(ExceededMemory) || has(ExitCode137)
  }

  predicate HasPanicSign(has: Evidence) {
    has(PanicWord) || has(Goroutine) || has(FatalError)
  }

  // ------------------------------------------------------------------- proposals

  datatype Input = Input(podName: string, namespace: string, ownerDeployment: string, evidence: Evidence)

  /** What a classifier sends: any strings at all. */
  datatype Proposal = Proposal(
    subCause: string, action: string, kind: string, namespace: string, name: string, safeForAutomation: bool,
        reasoning: string)

  /** A proposal after trimming, its fixed words read. */
  datatype Triage = Triage(
    subCause: SubCause, action: Response, kind: Kind, namespace: string, name: string, safeForAutomation: bool,
        reasoning: string)

  datatype Decision = Automate | Escalate | FallbackMiss

  datatype ReasonCode =
    | NoCode | UnsupportedSubCause | UnsupportedAction | MissingTargetKind | MissingTargetNamespace | MissingTargetName
    | MissingReasoning | NamespaceMismatch | UnsafeExecutableAction | SemanticGuardRejected | MissingDeploymentEvidence
    | WrongTargetKind | WrongTargetName | MissingOwnerDeployment | EscalationRequired

  datatype ValidationResult = ValidationResult(valid: bool, decision: Decision, reasonCode: ReasonCode, output: Triage)

  function Normalize(p: Proposal): Triage {
    Triage(ReadSubCause(TrimSpace(p.subCause)), ReadResponse(TrimSpace(p.action)), ReadKind(TrimSpace(p.kind)),
           TrimSpace(p.namespace), TrimSpace(p.name), p.safeForAutomation, TrimSpace(p.reasoning))
  }

  function Invalid(p: Triage, code: ReasonCode): ValidationResult {
    ValidationResult(false, FallbackMiss, code, p)
  }

  /** Whether the evidence supports the claimed sub-cause; NoCode when it does. */
  function SemanticFailure(cause: SubCause, has: Evidence): ReasonCode {
    match cause
    case TransientFailure => if !HasTransientSign(has) then SemanticGuardRejected else NoCode
    case BadDeploy =>
      if !HasDeploySign(has) then SemanticGuardRejected
      else if !HasRecentDeployment(has) then MissingDeploymentEvidence
      else NoCode
    case BadConfig => if !HasConfigSign(has) then SemanticGuardRejected else NoCode
    case OomAdjacent => if !HasMemorySign(has) then SemanticGuardRejected else NoCode
    case ApplicationPanic => if !HasPanicSign(has) then SemanticGuardRejected else NoCode
    case _ => NoCode
  }

  function ValidateAutomatable(p: Triage, input: Input): ValidationResult {
    var semantic := SemanticFailure(p.subCause, input.evidence);
    if !p.action.RestartPod? && !p.action.RolloutUndo? then Invalid(p, UnsafeExecutableAction)
    else if semantic != NoCode then Invalid(p, semantic)
    else
      match p.action
      case RestartPod =>
        if p.subCause != TransientFailure then Invalid(p, UnsafeExecutableAction)
        else if p.kind != Pod then Invalid(p, WrongTargetKind)
        else if p.name != input.podName then Invalid(p, WrongTargetName)
        else ValidationResult(true, Automate, NoCode, p)
      case _ =>
        if p.subCause != BadDeploy then Invalid(p, UnsafeExecutableAction)
        else if p.kind != Deployment then Invalid(p, WrongTargetKind)
        else if TrimSpace(input.ownerDeployment) == "" then Invalid(p, MissingOwnerDeployment)
        else if p.name != input.ownerDeployment then Invalid(p, WrongTargetName)
        else ValidationResult(true, Automate, NoCode, p)
  }

  function ValidateEscalation(p: Triage, input: Input): ValidationResult {
    if p.action != EscalateToHuman then Invalid(p, EscalationRequired)
    else if p.kind != Pod then Invalid(p, WrongTargetKind)
    else if p.name != input.podName then Invalid(p, WrongTargetName)
    else ValidationResult(true, Escalate, NoCode, p)
  }

  function ValidateTriage(p: Triage, input: Input): ValidationResult {
    if p.subCause.OtherCause? then Invalid(p, UnsupportedSubCause)
    else if p.action.OtherResponse? then Invalid(p, UnsupportedAction)
    else if p.kind == OtherKind("") then Invalid(p, MissingTargetKind)
    else if p.namespace == "" then Invalid(p, MissingTargetNamespace)
    else if p.name == "" then Invalid(p, MissingTargetName)
    else if p.reasoning == "" then Invalid(p, MissingReasoning)
    else if p.namespace != input.namespace then Invalid(p, NamespaceMismatch)
    else if p.safeForAutomation then ValidateAutomatable(p, input)
    else ValidateEscalation(p, input)
  }

  function ValidateProposal(raw: Proposal, input: Input): ValidationResult {
    ValidateTriage(Normalize(raw), input)
  }

  // -------------------------------------------------------------- what it lets pass

  /** Restarting the very Pod that was detected, on evidence of a transient failure. */
  predicate SafeRestart(p: Triage, input: Input) {
    && p.action == RestartPod && p.subCause == TransientFailure && p.kind == Pod
    && p.namespace == input.namespace && p.name == input.podName && HasTransientSign(input.evidence)
  }

  /** Undoing the rollout of the very Deployment that owns it, on evidence of a bad and recent rollout. */
  predicate SafeUndo(p: Triage, input: Input) {
    && p.action == RolloutUndo && p.subCause == BadDeploy && p.kind == Deployment
    && p.namespace == input.namespace && p.name == input.ownerDeployment
    && HasDeploySign(input.evidence) && HasRecentDeployment(input.evidence)
  }

  /** Handing the detected Pod to a human. */
  predicate PlainEscalation(p: Triage, input: Input) {
    && p.action == EscalateToHuman && !p.subCause.OtherCause? && p.kind == Pod
    && p.namespace == input.namespace && p.name == input.podName
  }

  predicate Named(p: Triage) {
    p.reasoning != "" && p.namespace != "" && p.name != ""
  }

  /** What holds of every answer of the validator on a proposal with a trimmed target name. */
  predicate PassesExactlyThreeShapes(v: ValidationResult, p: Triage, input: Input) {
    && v.output == p
    && (v.valid <==> v.decision != FallbackMiss) && (v.valid <==> v.reasonCode == NoCode)
    && (v.decision == Automate <==> p.safeForAutomation && Named(p) && (SafeRestart(p, input) || SafeUndo(p, input)))
    && (v.decision == Escalate <==> !p.safeForAutomation && Named(p) && PlainEscalation(p, input))
  }

  lemma AutomatableShapes(p: Triage, input: Input)
    requires p.namespace == input.namespace && (p.name == input.ownerDeployment ==>
        TrimSpace(input.ownerDeployment) != "")
    ensures var v := ValidateAutomatable(p, input);
            && v.output == p && v.decision != Escalate
            && (v.valid <==> v.decision != FallbackMiss) && (v.valid <==> v.reasonCode == NoCode)
            && (v.valid <==> SafeRestart(p, input) || SafeUndo(p, input))
  {
  }

  /** Exactly three shapes of proposal pass, whatever the classifier sends: a supported restart of the detected
      Pod, a supported undo of its owner, and an escalation of the detected Pod. */
  lemma ThreeShapesPass(raw: Proposal, input: Input)
    ensures PassesExactlyThreeShapes(ValidateProposal(raw, input), Normalize(raw), input)
  {
    var p := Normalize(raw);
    TrimSpaceLaws(raw.name);
    TrimSpaceLaws(p.name);
    TriageShapes(p, input);
  }

  lemma TriageShapes(p: Triage, input: Input)
    requires TrimSpace(p.name) == p.name
    ensures PassesExactlyThreeShapes(ValidateTriage(p, input), p, input)
  {
    if p.namespace == input.namespace && p.name != "" {
      AutomatableShapes(p, input);
    }
  }

  /** The words a proposal is built from survive trimming and are read back as what they are. */
  lemma ResponseWordsAreRead(r: Response)
    requires !r.OtherResponse?
    ensures ReadResponse(TrimSpace(Word(r))) == r
  {
    TrimSpaceLaws(Word(r));
    match r
    case RestartPod =>
    case RolloutUndo => assert "rollout_undo"[1] != "restart_pod"[1];
    case EscalateToHuman => assert "escalate_to_human"[0] != "restart_pod"[0]
        && "escalate_to_human"[0] != "rollout_undo"[0];
  }

  lemma CauseWordsAreRead(c: SubCause)
    requires !c.OtherCause?
    ensures ReadSubCause(TrimSpace(CauseWord(c))) == c
  {
    var word := CauseWord(c);
    TrimSpaceLaws(word);
    match c
    case TransientFailure =>
    case BadDeploy => assert word[0] == 'b';
    case BadConfig => assert word[0] == 'b' && word[4] == 'c';
    case ApplicationPanic => assert word[0] == 'a';
    case OomAdjacent => assert word[0] == 'o';
    case UnknownCause => assert word[0] == 'u';
  }

  lemma KindWordsAreRead(k: Kind)
    requires !k.OtherKind?
    ensures ReadKind(TrimSpace(KindWord(k))) == k
  {
    TrimSpaceLaws(KindWord(k));
    match k
    case Pod =>
    case Deployment => assert KindWord(k)[0] == 'D';
  }
}
