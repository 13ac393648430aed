// The restricted security floor: merging user overrides onto it, and applying the
// result to a whole pod.
module Security {
  import opened Basics

  // The profile types of seccomp and AppArmor.
  datatype ProfileType = RuntimeDefault | Localhost | Unconfined | OtherType(text: string)
  datatype Seccomp = Seccomp(kind: ProfileType, localhostProfile: Option<string>)

  datatype Capabilities = Capabilities(add: seq<string>, drop: seq<string>)

  datatype ProcMount = DefaultProcMount | UnmaskedProcMount

  // `safe`: on the list of the Pod Security Standards.
  datatype Sysctl = Sysctl(name: string, safe: bool)

  // `hostProcess` is windowsOptions.hostProcess.
  datatype PodContext = PodContext(
    runAsNonRoot: Option<bool>, runAsUser: Option<int>, runAsGroup: Option<int>, fsGroup: Option<int>,
    supplementalGroups: seq<int>, fsGroupChangePolicy: Option<string>,
    seccomp: Option<Seccomp>, seLinux: Option<string>,
    appArmor: Option<ProfileType>, hostProcess: Option<bool>, sysctls: seq<Sysctl>)

  datatype ContainerContext = ContainerContext(
    allowPrivilegeEscalation: Option<bool>, privileged: Option<bool>, readOnlyRootFilesystem: Option<bool>,
    runAsNonRoot: Option<bool>, runAsUser: Option<int>, runAsGroup: Option<int>,
    capabilities: Option<Capabilities>, seccomp: Option<Seccomp>, seLinux: Option<string>,
    procMount: Option<ProcMount>, appArmor: Option<ProfileType>, hostProcess: Option<bool>)

  datatype Overrides = Overrides(pod: Option<PodContext>, container: Option<ContainerContext>, automount: Option<bool>)

  datatype Violation =
    | PodRunAsNonRoot | PodRunAsUser | PodSeccomp
    | PrivilegeEscalation | Privileged | WritableRoot | ContainerRunAsNonRoot | ContainerRunAsUser
    | AddedCapabilities(add: seq<string>) | ContainerSeccomp

  datatype Mount = Mount(volume: string, path: string)

  datatype Container = Container(name: string, context: Option<ContainerContext>, mounts: seq<Mount>)

  datatype Pod = Pod(
    context: Option<PodContext>, automount: Option<bool>,
    initContainers: seq<Container>, containers: seq<Container>, volumes: seq<string>)

  const RESTRICTED_USER := 65532
  const TMP_VOLUME := "tmp"
  const TMP_MOUNT := Mount(TMP_VOLUME, "/tmp")

  const RESTRICTED_CONTAINER := ContainerContext(
    Some(false), None, Some(true), Some(true), None, None,
    Some(Capabilities([], ["ALL", "NET_RAW"])), Some(Seccomp(RuntimeDefault, None)), None, None, None, None)

  const RESTRICTED_POD := PodContext(
    Some(true), Some(RESTRICTED_USER), Some(RESTRICTED_USER), Some(RESTRICTED_USER), [], None,
    Some(Seccomp(RuntimeDefault, None)), None, None, None, [])

  // ----- The merge, field by field -----

  function Keep<T>(override: Option<T>, default: Option<T>): Option<T> {
    if override.Some? then override else default
  }

  function KeepUnless<T(==)>(override: Option<T>, refused: T, default: Option<T>): Option<T> {
    if override == Some(refused) then default else Keep(override, default)
  }

  function KeepSeccomp(override: Option<Seccomp>): Option<Seccomp> {
    if override.Some? && override.value.kind != Unconfined then override else Some(Seccomp(RuntimeDefault, None))
  }

  function Report(vs: seq<Violation>, c: bool, v: Violation): seq<Violation> { if c then vs + [v] else vs }

  function MergePod(o: Option<PodContext>): (PodContext, seq<Violation>) {
    if o.None? then (RESTRICTED_POD, [])
    else
      var x := o.value;
      (RESTRICTED_POD.(
         runAsUser := KeepUnless(x.runAsUser, 0, RESTRICTED_POD.runAsUser),
         runAsGroup := Keep(x.runAsGroup, RESTRICTED_POD.runAsGroup),
         fsGroup := Keep(x.fsGroup, RESTRICTED_POD.fsGroup),
         supplementalGroups := x.supplementalGroups,
         fsGroupChangePolicy := x.fsGroupChangePolicy,
         seccomp := KeepSeccomp(x.seccomp),
         seLinux := x.seLinux),
       PodViolations(x))
  }

  function PodViolations(x: PodContext): seq<Violation> {
    var v1 := Report([], x.runAsNonRoot == Some(false), PodRunAsNonRoot);
    var v2 := Report(v1, x.runAsUser == Some(0), PodRunAsUser);
    Report(v2, x.seccomp.Some? && x.seccomp.value.kind == Unconfined, PodSeccomp)
  }

  function MergeContainer(o: Option<ContainerContext>): (ContainerContext, seq<Violation>) {
    if o.None? then (RESTRICTED_CONTAINER, [])
    else
      var x := o.value;
      (RESTRICTED_CONTAINER.(
         runAsUser := KeepUnless(x.runAsUser, 0, None),
         runAsGroup := x.runAsGroup,
         seccomp := KeepSeccomp(x.seccomp),
         seLinux := x.seLinux),
       ContainerViolations(x))
  }

  function HardViolations(x: ContainerContext): seq<Violation> {
    var v1 := Report([], x.allowPrivilegeEscalation == Some(true), PrivilegeEscalation);
    var v2 := Report(v1, x.privileged == Some(true), Privileged);
    var v3 := Report(v2, x.readOnlyRootFilesystem == Some(false), WritableRoot);
    Report(v3, x.runAsNonRoot == Some(false), ContainerRunAsNonRoot)
  }

  function ContainerViolations(x: ContainerContext): seq<Violation> {
    var v5 := Report(HardViolations(x), x.runAsUser == Some(0), ContainerRunAsUser);
    var v6 := if x.capabilities.Some? then
                Report(v5, x.capabilities.value.add != [], AddedCapabilities(x.capabilities.value.add))
              else v5;
    Report(v6, x.seccomp.Some? && x.seccomp.value.kind == Unconfined, ContainerSeccomp)
  }

  function PodOverride(o: Option<Overrides>): Option<PodContext> { if o.Some? then o.value.pod else None }
  function ContainerOverride(o: Option<Overrides>): Option<ContainerContext> { if o.Some? then o.value.container else None }

  function Violations(o: Option<Overrides>): seq<Violation> {
    MergePod(PodOverride(o)).1 + MergeContainer(ContainerOverride(o)).1
  }

  // ----- A whole pod -----

  predicate MountsVolume(c: Container, volume: string) { exists m :: m in c.mounts && m.volume == volume }

  function SecureContainer(c: Container, context: ContainerContext): Container {
    c.(context := Some(context),
       mounts := if MountsVolume(c, TMP_VOLUME) then c.mounts else c.mounts + [TMP_MOUNT])
  }

  function SecureAll(cs: seq<Container>, main: Option<string>, context: ContainerContext): (r: seq<Container>)
    ensures |r| == |cs|
    ensures forall i :: 0 <= i < |cs| ==>
              r[i] == SecureContainer(cs[i], if main == Some(cs[i].name) then context else RESTRICTED_CONTAINER)
  {
    seq(|cs|, i requires 0 <= i < |cs| =>
      SecureContainer(cs[i], if main == Some(cs[i].name) then context else RESTRICTED_CONTAINER))
  }

  function Secured(p: Pod, main: string, o: Option<Overrides>): Pod {
    Pod(
      Some(MergePod(PodOverride(o)).0),
      Some(o.Some? && o.value.automount == Some(true)),
      SecureAll(p.initContainers, None, RESTRICTED_CONTAINER),
      SecureAll(p.containers, Some(main), MergeContainer(ContainerOverride(o)).0),
      if TMP_VOLUME in p.volumes then p.volumes else p.volumes + [TMP_VOLUME])
  }

  // ----- The imperative form -----

  method MergePodSecurityContext(override: Option<PodContext>) returns (out: PodContext, violations: seq<Violation>)
    ensures (out, violations) == MergePod(override)
  {
    out := RESTRICTED_POD;
    violations := [];
    if override.None? {
      return;
    }
    var x := override.value;
    if x.runAsNonRoot.Some? && !x.runAsNonRoot.value {
      violations := violations + [PodRunAsNonRoot];
    }
    ghost var v1 := Report([], x.runAsNonRoot == Some(false), PodRunAsNonRoot);
    assert violations == v1;
    if x.runAsUser.Some? {
      if x.runAsUser.value == 0 {
        violations := violations + [PodRunAsUser];
      } else {
        out := out.(runAsUser := x.runAsUser);
      }
    }
    ghost var user := KeepUnless(x.runAsUser, 0, RESTRICTED_POD.runAsUser);
    assert violations == Report(v1, x.runAsUser == Some(0), PodRunAsUser) && out == RESTRICTED_POD.(runAsUser := user);
    if x.runAsGroup.Some? {
      out := out.(runAsGroup := x.runAsGroup);
    }
    if x.fsGroup.Some? {
      out := out.(fsGroup := x.fsGroup);
    }
    if |x.supplementalGroups| > 0 {
      out := out.(supplementalGroups := x.supplementalGroups);
    }
    if x.fsGroupChangePolicy.Some? {
      out := out.(fsGroupChangePolicy := x.fsGroupChangePolicy);
    }
    ghost var groups := RESTRICTED_POD.(
      runAsUser := user,
      runAsGroup := Keep(x.runAsGroup, RESTRICTED_POD.runAsGroup),
      fsGroup := Keep(x.fsGroup, RESTRICTED_POD.fsGroup),
      supplementalGroups := x.supplementalGroups,
      fsGroupChangePolicy := x.fsGroupChangePolicy);
    assert out == groups;
    if x.seccomp.Some? {
      if x.seccomp.value.kind == Unconfined {
        violations := violations + [PodSeccomp];
      } else {
        out := out.(seccomp := x.seccomp);
      }
    }
    assert violations == PodViolations(x) && out == groups.(seccomp := KeepSeccomp(x.seccomp));
    if x.seLinux.Some? {
      out := out.(seLinux := x.seLinux);
    }
  }

  // The first part of mergeContainerSecurityContext: fields that only report.
  method ReportHardFields(x: ContainerContext) returns (violations: seq<Violation>)
    ensures violations == HardViolations(x)
  {
    violations := [];
    if x.allowPrivilegeEscalation.Some? && x.allowPrivilegeEscalation.value {
      violations := violations + [PrivilegeEscalation];
    }
    if x.privileged.Some? && x.privileged.value {
      violations := violations + [Privileged];
    }
    if x.readOnlyRootFilesystem.Some? && !x.readOnlyRootFilesystem.value {
      violations := violations + [WritableRoot];
    }
    if x.runAsNonRoot.Some? && !x.runAsNonRoot.value {
      violations := violations + [ContainerRunAsNonRoot];
    }
  }

  method MergeContainerSecurityContext(override: Option<ContainerContext>)
    returns (out: ContainerContext, violations: seq<Violation>)
    ensures (out, violations) == MergeContainer(override)
  {
    out := RESTRICTED_CONTAINER;
    violations := [];
    if override.None? {
      return;
    }
    var x := override.value;
    violations := ReportHardFields(x);
    ghost var v4 := violations;
    if x.runAsUser.Some? {
      if x.runAsUser.value == 0 {
        violations := violations + [ContainerRunAsUser];
      } else {
        out := out.(runAsUser := x.runAsUser);
      }
    }
    ghost var user := KeepUnless(x.runAsUser, 0, None);
    assert violations == Report(v4, x.runAsUser == Some(0), ContainerRunAsUser);
    assert out == RESTRICTED_CONTAINER.(runAsUser := user);
    if x.runAsGroup.Some? {
      out := out.(runAsGroup := x.runAsGroup);
    }
    assert out == RESTRICTED_CONTAINER.(runAsUser := user, runAsGroup := x.runAsGroup);
    if x.capabilities.Some? {
      if |x.capabilities.value.add| > 0 {
        violations := violations + [AddedCapabilities(x.capabilities.value.add)];
      }
    }
    if x.seccomp.Some? {
      if x.seccomp.value.kind == Unconfined {
        violations := violations + [ContainerSeccomp];
      } else {
        out := out.(seccomp := x.seccomp);
      }
    }
    assert violations == ContainerViolations(x);
    if x.seLinux.Some? {
      out := out.(seLinux := x.seLinux);
    }
  }

  method ComputeSecurityViolations(overrides: Option<Overrides>) returns (out: seq<Violation>)
    ensures out == Violations(overrides)
  {
    if overrides.None? {
      return [];
    }
    var _, podViolations := MergePodSecurityContext(overrides.value.pod);
    var _, containerViolations := MergeContainerSecurityContext(overrides.value.container);
    out := podViolations;
    out := out + containerViolations;
  }

  class PodSpec {
    var context: Option<PodContext>
    var automount: Option<bool>
    var initContainers: seq<Container>
    var containers: seq<Container>
    var volumes: seq<string>

    constructor (p: Pod)
      ensures Value() == p
    {
      context, automount := p.context, p.automount;
      initContainers, containers, volumes := p.initContainers, p.containers, p.volumes;
    }

    function Value(): Pod
      reads this
    {
      Pod(context, automount, initContainers, containers, volumes)
    }
  }

  method ApplyContainer(c: Container, context: ContainerContext) returns (r: Container)
    ensures r == SecureContainer(c, context)
  {
    r := c.(context := Some(context));
    var hasTmp := false;
    for i := 0 to |c.mounts|
      invariant hasTmp <==> exists j :: 0 <= j < i && c.mounts[j].volume == TMP_VOLUME
    {
      if c.mounts[i].volume == TMP_VOLUME {
        hasTmp := true;
        break;
      }
    }
    if !hasTmp {
      r := r.(mounts := r.mounts + [TMP_MOUNT]);
    }
  }

  // Edits the pod in place and reports every override that was refused.
  method ApplySecurity(pod: PodSpec, main: string, overrides: Option<Overrides>) returns (violations: seq<Violation>)
    modifies pod
    ensures pod.Value() == Secured(old(pod.Value()), main, overrides)
    ensures violations == Violations(overrides)
  {
    var podOverride, containerOverride, automount := None, None, None;
    if overrides.Some? {
      podOverride := overrides.value.pod;
      containerOverride := overrides.value.container;
      automount := overrides.value.automount;
    }
    var mergedPod, podViolations := MergePodSecurityContext(podOverride);
    var mergedMain, mainViolations := MergeContainerSecurityContext(containerOverride);
    violations := podViolations + mainViolations;
    pod.context := Some(mergedPod);
    pod.automount := Some(automount.Some? && automount.value);

    for i := 0 to |pod.initContainers|
      modifies pod`initContainers
      invariant |pod.initContainers| == |old(pod.initContainers)|
      invariant forall j :: 0 <= j < i ==>
                  pod.initContainers[j] == SecureContainer(old(pod.initContainers)[j], RESTRICTED_CONTAINER)
      invariant forall j :: i <= j < |pod.initContainers| ==> pod.initContainers[j] == old(pod.initContainers)[j]
    {
      var c := ApplyContainer(pod.initContainers[i], RESTRICTED_CONTAINER);
      pod.initContainers := pod.initContainers[i := c];
    }
    assert pod.initContainers == SecureAll(old(pod.initContainers), None, RESTRICTED_CONTAINER);

    for i := 0 to |pod.containers|
      modifies pod`containers
      invariant |pod.containers| == |old(pod.containers)|
      invariant forall j :: 0 <= j < i ==>
                  pod.containers[j] == SecureContainer(old(pod.containers)[j],
                    if old(pod.containers)[j].name == main then mergedMain else RESTRICTED_CONTAINER)
      invariant forall j :: i <= j < |pod.containers| ==> pod.containers[j] == old(pod.containers)[j]
    {
      var c;
      if pod.containers[i].name == main {
        c := ApplyContainer(pod.containers[i], mergedMain);
      } else {
        c := ApplyContainer(pod.containers[i], RESTRICTED_CONTAINER);
      }
      pod.containers := pod.containers[i := c];
    }
    assert pod.containers == SecureAll(old(pod.containers), Some(main), mergedMain);

    var hasTmpVol := false;
    for i := 0 to |pod.volumes|
      invariant hasTmpVol <==> TMP_VOLUME in pod.volumes[..i]
    {
      assert pod.volumes[..i + 1] == pod.volumes[..i] + [pod.volumes[i]];
      if pod.volumes[i] == TMP_VOLUME {
        hasTmpVol := true;
        break;
      }
    }
    assert hasTmpVol <==> TMP_VOLUME in pod.volumes by {
      assert pod.volumes[..|pod.volumes|] == pod.volumes;
    }
    if !hasTmpVol {
      pod.volumes := pod.volumes + [TMP_VOLUME];
    }
  }

  // ----- The floor -----

  // Fields of the restricted Pod Security Standard, seccomp aside.
  predicate ContainerFloor(c: ContainerContext) {
    && c.allowPrivilegeEscalation == Some(false) && c.privileged != Some(true)
    && c.readOnlyRootFilesystem == Some(true) && c.runAsNonRoot == Some(true) && c.runAsUser != Some(0)
    && c.capabilities.Some? && c.capabilities.value.add == [] && "ALL" in c.capabilities.value.drop
    && c.procMount != Some(UnmaskedProcMount) && c.hostProcess != Some(true) && AppArmorFloor(c.appArmor)
  }

  predicate PodFloor(p: PodContext) {
    && p.runAsNonRoot == Some(true) && p.runAsUser.Some? && p.runAsUser != Some(0)
    && p.hostProcess != Some(true) && AppArmorFloor(p.appArmor)
    && forall i :: 0 <= i < |p.sysctls| ==> p.sysctls[i].safe
  }

  predicate AppArmorFloor(a: Option<ProfileType>) { a.Some? ==> a.value in {RuntimeDefault, Localhost} }

  predicate SeccompFloor(s: Option<Seccomp>) { s.Some? && s.value.kind in {RuntimeDefault, Localhost} }

  // The documented profile types; the Agent schema takes any string.
  predicate KnownSeccomp(s: Option<Seccomp>) { s.Some? ==> !s.value.kind.OtherType? }

  // Every container of every secured pod meets the floor; the seccomp part holds
  // for the main container and the pod exactly when the override's profile type
  // is a documented one, because only the literal Unconfined is refused.
  lemma SecuredMeetsFloor(p: Pod, main: string, o: Option<Overrides>)
    ensures var q := Secured(p, main, o);
            && PodFloor(q.context.value)
            && (SeccompFloor(q.context.value.seccomp)
                <==> (PodOverride(o).Some? ==> KnownSeccomp(PodOverride(o).value.seccomp)))
            && (forall c :: c in q.initContainers + q.containers ==>
                  c.context.Some? && ContainerFloor(c.context.value))
            && (forall c :: c in q.initContainers ==> SeccompFloor(c.context.value.seccomp))
            && (forall c :: c in q.containers ==>
                  (SeccompFloor(c.context.value.seccomp)
                   <==> (c.name == main && ContainerOverride(o).Some? ==> KnownSeccomp(ContainerOverride(o).value.seccomp))))
  {
    assert "ALL" in ["ALL", "NET_RAW"] by { assert ["ALL", "NET_RAW"][0] == "ALL"; }
  }

  // ----- Fixpoint -----

  // Merging a merged context returns it, and refuses nothing.
  lemma MergeIsFixpoint(x: Option<PodContext>, y: Option<ContainerContext>)
    ensures MergePod(Some(MergePod(x).0)) == (MergePod(x).0, [])
    ensures MergeContainer(Some(MergeContainer(y).0)) == (MergeContainer(y).0, [])
  {
  }

  // ----- What becomes of each field of an override -----

  datatype ContainerField =
    | Escalation | PrivilegedFlag | ReadOnlyRoot | NonRoot | User | Group | CapAdd | CapDrop
    | SeccompProfile | SeLinux | ProcMountField | AppArmor | HostProcess

  // The override says something about field f.
  predicate Sets(x: ContainerContext, f: ContainerField) {
    match f
    case Escalation => x.allowPrivilegeEscalation.Some?
    case PrivilegedFlag => x.privileged.Some?
    case ReadOnlyRoot => x.readOnlyRootFilesystem.Some?
    case NonRoot => x.runAsNonRoot.Some?
    case User => x.runAsUser.Some?
    case Group => x.runAsGroup.Some?
    case CapAdd => x.capabilities.Some? && x.capabilities.value.add != []
    case CapDrop => x.capabilities.Some? && x.capabilities.value.drop != []
    case SeccompProfile => x.seccomp.Some?
    case SeLinux => x.seLinux.Some?
    case ProcMountField => x.procMount.Some?
    case AppArmor => x.appArmor.Some?
    case HostProcess => x.hostProcess.Some?
  }

  function CapabilitiesOf(c: ContainerContext): Capabilities {
    if c.capabilities.Some? then c.capabilities.value else Capabilities([], [])
  }

  // c with field f as in x.
  function WithField(c: ContainerContext, x: ContainerContext, f: ContainerField): ContainerContext {
    match f
    case Escalation => c.(allowPrivilegeEscalation := x.allowPrivilegeEscalation)
    case PrivilegedFlag => c.(privileged := x.privileged)
    case ReadOnlyRoot => c.(readOnlyRootFilesystem := x.readOnlyRootFilesystem)
    case NonRoot => c.(runAsNonRoot := x.runAsNonRoot)
    case User => c.(runAsUser := x.runAsUser)
    case Group => c.(runAsGroup := x.runAsGroup)
    case CapAdd => c.(capabilities := Some(CapabilitiesOf(c).(add := CapabilitiesOf(x).add)))
    case CapDrop => c.(capabilities := Some(CapabilitiesOf(c).(drop := CapabilitiesOf(x).drop)))
    case SeccompProfile => c.(seccomp := x.seccomp)
    case SeLinux => c.(seLinux := x.seLinux)
    case ProcMountField => c.(procMount := x.procMount)
    case AppArmor => c.(appArmor := x.appArmor)
    case HostProcess => c.(hostProcess := x.hostProcess)
  }

  // Taking field f from the override would break the floor.
  predicate Weakens(x: ContainerContext, f: ContainerField) {
    && Sets(x, f)
    && !(ContainerFloor(WithField(RESTRICTED_CONTAINER, x, f))
         && SeccompFloor(WithField(RESTRICTED_CONTAINER, x, f).seccomp))
  }

  // The main container has field f as the override asks.
  predicate Kept(x: ContainerContext, f: ContainerField) {
    WithField(MergeContainer(Some(x)).0, x, f) == MergeContainer(Some(x)).0
  }

  predicate About(v: Violation, f: ContainerField) {
    match v
    case PrivilegeEscalation => f == Escalation
    case Privileged => f == PrivilegedFlag
    case WritableRoot => f == ReadOnlyRoot
    case ContainerRunAsNonRoot => f == NonRoot
    case ContainerRunAsUser => f == User
    case AddedCapabilities(_) => f == CapAdd
    case ContainerSeccomp => f == SeccompProfile
    case _ => false
  }

  predicate Reported(x: ContainerContext, f: ContainerField) {
    exists v :: v in MergeContainer(Some(x)).1 && About(v, f)
  }

  predicate UnknownSeccomp(s: Option<Seccomp>) { s.Some? && s.value.kind.OtherType? }

  // Fields the merge never looks at.
  predicate Unread(f: ContainerField) { f in {CapDrop, ProcMountField, AppArmor, HostProcess} }

  // What never leads to a report: those fields, and a seccomp type outside the documented values.
  predicate Overlooked(x: ContainerContext, f: ContainerField) {
    Unread(f) || (f == SeccompProfile && UnknownSeccomp(x.seccomp))
  }

  lemma ReportIn(vs: seq<Violation>, c: bool, v: Violation, w: Violation)
    ensures w in Report(vs, c, v) <==> w in vs || (c && w == v)
  {
  }

  lemma InHardViolations(x: ContainerContext, w: Violation)
    ensures w in HardViolations(x)
            <==> || (w == PrivilegeEscalation && x.allowPrivilegeEscalation == Some(true))
                 || (w == Privileged && x.privileged == Some(true))
                 || (w == WritableRoot && x.readOnlyRootFilesystem == Some(false))
                 || (w == ContainerRunAsNonRoot && x.runAsNonRoot == Some(false))
  {
    var v1 := Report([], x.allowPrivilegeEscalation == Some(true), PrivilegeEscalation);
    var v2 := Report(v1, x.privileged == Some(true), Privileged);
    var v3 := Report(v2, x.readOnlyRootFilesystem == Some(false), WritableRoot);
    ReportIn([], x.allowPrivilegeEscalation == Some(true), PrivilegeEscalation, w);
    ReportIn(v1, x.privileged == Some(true), Privileged, w);
    ReportIn(v2, x.readOnlyRootFilesystem == Some(false), WritableRoot, w);
    ReportIn(v3, x.runAsNonRoot == Some(false), ContainerRunAsNonRoot, w);
  }

  lemma InContainerViolations(x: ContainerContext, w: Violation)
    ensures w in ContainerViolations(x)
            <==> || w in HardViolations(x)
                 || (w == ContainerRunAsUser && x.runAsUser == Some(0))
                 || (w == AddedCapabilities(CapabilitiesOf(x).add) && CapabilitiesOf(x).add != [])
                 || (w == ContainerSeccomp && x.seccomp.Some? && x.seccomp.value.kind == Unconfined)
  {
    var v5 := Report(HardViolations(x), x.runAsUser == Some(0), ContainerRunAsUser);
    ReportIn(HardViolations(x), x.runAsUser == Some(0), ContainerRunAsUser, w);
    var add := CapabilitiesOf(x).add;
    var v6 := Report(v5, add != [], AddedCapabilities(add));
    ReportIn(v5, add != [], AddedCapabilities(add), w);
    ReportIn(v6, x.seccomp.Some? && x.seccomp.value.kind == Unconfined, ContainerSeccomp, w);
  }

  lemma AllIsDropped()
    ensures "ALL" in RESTRICTED_CONTAINER.capabilities.value.drop
  {
    assert ["ALL", "NET_RAW"][0] == "ALL";
  }

  lemma Flag(o: Option<bool>)
    ensures o in {None, Some(true), Some(false)}
  {
    match o
    case None =>
    case Some(b) => assert o == if b then Some(true) else Some(false);
  }

  // Which values weaken, spelled out.
  lemma WeakeningValues(x: ContainerContext, f: ContainerField)
    ensures Weakens(x, f)
            <==> match f
                 case Escalation => x.allowPrivilegeEscalation == Some(true)
                 case PrivilegedFlag => x.privileged == Some(true)
                 case ReadOnlyRoot => x.readOnlyRootFilesystem == Some(false)
                 case NonRoot => x.runAsNonRoot == Some(false)
                 case User => x.runAsUser == Some(0)
                 case Group => false
                 case CapAdd => CapabilitiesOf(x).add != []
                 case CapDrop => CapabilitiesOf(x).drop != [] && "ALL" !in CapabilitiesOf(x).drop
                 case SeccompProfile => x.seccomp.Some? && x.seccomp.value.kind !in {RuntimeDefault, Localhost}
                 case SeLinux => false
                 case ProcMountField => x.procMount == Some(UnmaskedProcMount)
                 case AppArmor => x.appArmor.Some? && x.appArmor.value !in {RuntimeDefault, Localhost}
                 case HostProcess => x.hostProcess == Some(true)
  {
    AllIsDropped();
    Flag(x.readOnlyRootFilesystem);
    Flag(x.runAsNonRoot);
    Flag(x.allowPrivilegeEscalation);
  }

  // What a report on field f says.
  function ReportOn(x: ContainerContext, f: ContainerField): Violation {
    match f
    case Escalation => PrivilegeEscalation
    case PrivilegedFlag => Privileged
    case ReadOnlyRoot => WritableRoot
    case NonRoot => ContainerRunAsNonRoot
    case User => ContainerRunAsUser
    case CapAdd => AddedCapabilities(CapabilitiesOf(x).add)
    case _ => ContainerSeccomp
  }

  lemma WeakeningIsReported(x: ContainerContext, f: ContainerField)
    requires Weakens(x, f) && !Overlooked(x, f)
    ensures ReportOn(x, f) in MergeContainer(Some(x)).1 && About(ReportOn(x, f), f)
  {
    WeakeningValues(x, f);
    InHardViolations(x, ReportOn(x, f));
    InContainerViolations(x, ReportOn(x, f));
  }

  lemma ReportIsOnWeakening(x: ContainerContext, f: ContainerField, w: Violation)
    requires w in MergeContainer(Some(x)).1 && About(w, f)
    ensures Weakens(x, f) && !Overlooked(x, f)
  {
    InHardViolations(x, w);
    InContainerViolations(x, w);
    WeakeningValues(x, f);
  }

  // Field by field: a violation is reported exactly for the fields that would
  // weaken the floor, except those the merge never looks at and a seccomp type
  // outside the documented values.
  lemma ReportedIff(x: ContainerContext, f: ContainerField)
    ensures Reported(x, f) <==> Weakens(x, f) && !Overlooked(x, f)
  {
    if w :| w in MergeContainer(Some(x)).1 && About(w, f) {
      ReportIsOnWeakening(x, f, w);
    }
    if Weakens(x, f) && !Overlooked(x, f) {
      WeakeningIsReported(x, f);
    }
  }

  // What the main container takes over from the override: of user, group, seccomp
  // and SELinux all that keeps the floor, and a seccomp type outside the documented values;
  // of the rest only what the floor says anyway.
  lemma KeptIff(x: ContainerContext, f: ContainerField)
    requires Sets(x, f)
    ensures Kept(x, f)
            <==> || WithField(RESTRICTED_CONTAINER, x, f) == RESTRICTED_CONTAINER
                 || (f in {User, Group, SeccompProfile, SeLinux}
                     && (!Weakens(x, f) || (f == SeccompProfile && UnknownSeccomp(x.seccomp))))
  {
    AllIsDropped();
  }

  // A field that would weaken the floor meets one of three fates: it is clamped
  // and reported, clamped without a report, or (a seccomp type outside the documented values)
  // let through without a report.
  lemma WeakeningFieldFate(x: ContainerContext, f: ContainerField)
    requires Weakens(x, f)
    ensures !Kept(x, f) && Reported(x, f) <==> !Overlooked(x, f)
    ensures !Kept(x, f) && !Reported(x, f) <==> Unread(f)
    ensures Kept(x, f) <==> f == SeccompProfile && UnknownSeccomp(x.seccomp)
    ensures Kept(x, f) ==> !Reported(x, f)
  {
    ReportedIff(x, f);
    KeptIff(x, f);
    AllIsDropped();
  }

  // A whole override is clamped although nothing is reported exactly when it has a
  // weakening field that the merge does not look at, and no weakening field that it
  // does report.
  lemma SilentlyClampedIff(x: ContainerContext)
    ensures MergeContainer(Some(x)).1 == [] && (exists f :: Weakens(x, f) && !Kept(x, f))
            <==> && (exists f :: Weakens(x, f) && Unread(f))
                 && (forall f :: Weakens(x, f) ==> Overlooked(x, f))
  {
    NoContainerViolationsIff(x);
    forall f | Weakens(x, f)
      ensures Unread(f) ==> !Kept(x, f)
      ensures !Kept(x, f) && !Unread(f) ==> !Overlooked(x, f)
    {
      WeakeningFieldFate(x, f);
    }
  }

  lemma NoContainerViolationsIff(x: ContainerContext)
    ensures MergeContainer(Some(x)).1 == []
            <==> forall f :: Weakens(x, f) ==> Overlooked(x, f)
  {
    forall f: ContainerField
      ensures Reported(x, f) <==> Weakens(x, f) && !Overlooked(x, f)
    {
      ReportedIff(x, f);
    }
    var vs := MergeContainer(Some(x)).1;
    if vs != [] {
      var f := FieldOf(x, vs[0]);
      assert vs[0] in vs && About(vs[0], f);
      assert Reported(x, f);
    }
  }

  // Every violation of a container override is about one of its fields.
  lemma FieldOf(x: ContainerContext, v: Violation) returns (f: ContainerField)
    requires v in MergeContainer(Some(x)).1
    ensures About(v, f)
  {
    InHardViolations(x, v);
    InContainerViolations(x, v);
    f := match v
      case PrivilegeEscalation => Escalation
      case Privileged => PrivilegedFlag
      case WritableRoot => ReadOnlyRoot
      case ContainerRunAsNonRoot => NonRoot
      case ContainerRunAsUser => User
      case AddedCapabilities(_) => CapAdd
      case _ => SeccompProfile;
  }

  const BLANK_CONTAINER := ContainerContext(None, None, None, None, None, None, None, None, None, None, None, None)

  // The case in point: asking for an unmasked /proc is refused without a word.
  lemma UnmaskedProcMountIsSilent()
    ensures var x := BLANK_CONTAINER.(procMount := Some(UnmaskedProcMount));
            && Weakens(x, ProcMountField) && !Kept(x, ProcMountField)
            && MergeContainer(Some(x)) == (RESTRICTED_CONTAINER, [])
  {
  }

  // ----- The same for the pod -----

  datatype PodField =
    | PodNonRoot | PodUser | PodGroup | FsGroup | SupplementalGroups | FsGroupPolicy
    | PodSeccompProfile | PodSeLinux | PodAppArmor | PodHostProcess | Sysctls

  predicate PodSets(x: PodContext, f: PodField) {
    match f
    case PodNonRoot => x.runAsNonRoot.Some?
    case PodUser => x.runAsUser.Some?
    case PodGroup => x.runAsGroup.Some?
    case FsGroup => x.fsGroup.Some?
    case SupplementalGroups => x.supplementalGroups != []
    case FsGroupPolicy => x.fsGroupChangePolicy.Some?
    case PodSeccompProfile => x.seccomp.Some?
    case PodSeLinux => x.seLinux.Some?
    case PodAppArmor => x.appArmor.Some?
    case PodHostProcess => x.hostProcess.Some?
    case Sysctls => x.sysctls != []
  }

  function WithPodField(c: PodContext, x: PodContext, f: PodField): PodContext {
    match f
    case PodNonRoot => c.(runAsNonRoot := x.runAsNonRoot)
    case PodUser => c.(runAsUser := x.runAsUser)
    case PodGroup => c.(runAsGroup := x.runAsGroup)
    case FsGroup => c.(fsGroup := x.fsGroup)
    case SupplementalGroups => c.(supplementalGroups := x.supplementalGroups)
    case FsGroupPolicy => c.(fsGroupChangePolicy := x.fsGroupChangePolicy)
    case PodSeccompProfile => c.(seccomp := x.seccomp)
    case PodSeLinux => c.(seLinux := x.seLinux)
    case PodAppArmor => c.(appArmor := x.appArmor)
    case PodHostProcess => c.(hostProcess := x.hostProcess)
    case Sysctls => c.(sysctls := x.sysctls)
  }

  predicate PodWeakens(x: PodContext, f: PodField) {
    && PodSets(x, f)
    && !(PodFloor(WithPodField(RESTRICTED_POD, x, f)) && SeccompFloor(WithPodField(RESTRICTED_POD, x, f).seccomp))
  }

  predicate PodKept(x: PodContext, f: PodField) {
    WithPodField(MergePod(Some(x)).0, x, f) == MergePod(Some(x)).0
  }

  predicate PodAbout(v: Violation, f: PodField) {
    match v
    case PodRunAsNonRoot => f == PodNonRoot
    case PodRunAsUser => f == PodUser
    case PodSeccomp => f == PodSeccompProfile
    case _ => false
  }

  predicate PodReported(x: PodContext, f: PodField) {
    exists v :: v in MergePod(Some(x)).1 && PodAbout(v, f)
  }

  predicate PodUnread(f: PodField) { f in {PodAppArmor, PodHostProcess, Sysctls} }

  predicate PodOverlooked(x: PodContext, f: PodField) {
    PodUnread(f) || (f == PodSeccompProfile && UnknownSeccomp(x.seccomp))
  }

  lemma InPodViolations(x: PodContext, w: Violation)
    ensures w in PodViolations(x)
            <==> || (w == PodRunAsNonRoot && x.runAsNonRoot == Some(false))
                 || (w == PodRunAsUser && x.runAsUser == Some(0))
                 || (w == PodSeccomp && x.seccomp.Some? && x.seccomp.value.kind == Unconfined)
  {
    var v1 := Report([], x.runAsNonRoot == Some(false), PodRunAsNonRoot);
    var v2 := Report(v1, x.runAsUser == Some(0), PodRunAsUser);
    ReportIn([], x.runAsNonRoot == Some(false), PodRunAsNonRoot, w);
    ReportIn(v1, x.runAsUser == Some(0), PodRunAsUser, w);
    ReportIn(v2, x.seccomp.Some? && x.seccomp.value.kind == Unconfined, PodSeccomp, w);
  }

  lemma PodWeakeningValues(x: PodContext, f: PodField)
    ensures PodWeakens(x, f)
            <==> match f
                 case PodNonRoot => x.runAsNonRoot == Some(false)
                 case PodUser => x.runAsUser == Some(0)
                 case PodSeccompProfile => x.seccomp.Some? && x.seccomp.value.kind !in {RuntimeDefault, Localhost}
                 case PodAppArmor => x.appArmor.Some? && x.appArmor.value !in {RuntimeDefault, Localhost}
                 case PodHostProcess => x.hostProcess == Some(true)
                 case Sysctls => exists i :: 0 <= i < |x.sysctls| && !x.sysctls[i].safe
                 case _ => false
  {
    Flag(x.runAsNonRoot);
    match f
    case Sysctls => assert WithPodField(RESTRICTED_POD, x, f).sysctls == x.sysctls;
    case _ => assert WithPodField(RESTRICTED_POD, x, f).sysctls == [];
  }

  function PodReportOn(f: PodField): Violation {
    match f
    case PodNonRoot => PodRunAsNonRoot
    case PodUser => PodRunAsUser
    case _ => PodSeccomp
  }

  lemma PodReportedIff(x: PodContext, f: PodField)
    ensures PodReported(x, f) <==> PodWeakens(x, f) && !PodOverlooked(x, f)
  {
    PodWeakeningValues(x, f);
    if w :| w in MergePod(Some(x)).1 && PodAbout(w, f) {
      InPodViolations(x, w);
    }
    if PodWeakens(x, f) && !PodOverlooked(x, f) {
      InPodViolations(x, PodReportOn(f));
      assert PodReportOn(f) in MergePod(Some(x)).1 && PodAbout(PodReportOn(f), f);
    }
  }

  // The pod takes over everything the merge reads that keeps the floor.
  lemma PodKeptIff(x: PodContext, f: PodField)
    requires PodSets(x, f)
    ensures PodKept(x, f)
            <==> || WithPodField(RESTRICTED_POD, x, f) == RESTRICTED_POD
                 || (!PodUnread(f) && (!PodWeakens(x, f) || (f == PodSeccompProfile && UnknownSeccomp(x.seccomp))))
  {
  }

  lemma PodWeakeningFieldFate(x: PodContext, f: PodField)
    requires PodWeakens(x, f)
    ensures !PodKept(x, f) && PodReported(x, f) <==> !PodOverlooked(x, f)
    ensures !PodKept(x, f) && !PodReported(x, f) <==> PodUnread(f)
    ensures PodKept(x, f) <==> f == PodSeccompProfile && UnknownSeccomp(x.seccomp)
    ensures PodKept(x, f) ==> !PodReported(x, f)
  {
    PodReportedIff(x, f);
    PodKeptIff(x, f);
  }

  lemma NoPodViolationsIff(x: PodContext)
    ensures MergePod(Some(x)).1 == []
            <==> forall f :: PodWeakens(x, f) ==> PodOverlooked(x, f)
  {
    forall f: PodField
      ensures PodReported(x, f) <==> PodWeakens(x, f) && !PodOverlooked(x, f)
    {
      PodReportedIff(x, f);
    }
    var vs := MergePod(Some(x)).1;
    if vs != [] {
      InPodViolations(x, vs[0]);
      var f := if vs[0] == PodRunAsNonRoot then PodNonRoot else if vs[0] == PodRunAsUser then PodUser else PodSeccompProfile;
      assert vs[0] in vs && PodAbout(vs[0], f);
      assert PodReported(x, f);
    }
  }

  // Nothing is reported about a workload's overrides exactly when every field that
  // would weaken the floor is one the merge does not look at, or a seccomp type
  // outside the documented values.
  lemma NoViolationsIff(o: Option<Overrides>)
    ensures Violations(o) == []
            <==> && (forall f :: PodOverride(o).Some? && PodWeakens(PodOverride(o).value, f) ==>
                       PodOverlooked(PodOverride(o).value, f))
                 && (forall f :: ContainerOverride(o).Some? && Weakens(ContainerOverride(o).value, f) ==>
                       Overlooked(ContainerOverride(o).value, f))
  {
    if PodOverride(o).Some? {
      NoPodViolationsIff(PodOverride(o).value);
    }
    if ContainerOverride(o).Some? {
      NoContainerViolationsIff(ContainerOverride(o).value);
    }
  }

  // The place of a violation in a report: pod before container, field by field.
  function Place(v: Violation): nat {
    match v
    case PodRunAsNonRoot => 0
    case PodRunAsUser => 1
    case PodSeccomp => 2
    case PrivilegeEscalation => 3
    case Privileged => 4
    case WritableRoot => 5
    case ContainerRunAsNonRoot => 6
    case ContainerRunAsUser => 7
    case AddedCapabilities(_) => 8
    case ContainerSeccomp => 9
  }

  predicate InPlace(vs: seq<Violation>) { forall i, j :: 0 <= i < j < |vs| ==> Place(vs[i]) < Place(vs[j]) }

  predicate Within(vs: seq<Violation>, lo: nat, hi: nat) {
    InPlace(vs) && forall i :: 0 <= i < |vs| ==> lo <= Place(vs[i]) < hi
  }

  lemma ReportInPlace(vs: seq<Violation>, lo: nat, c: bool, v: Violation)
    requires lo <= Place(v) && Within(vs, lo, Place(v))
    ensures Within(Report(vs, c, v), lo, Place(v) + 1)
  {
  }

  lemma PodReportInPlace(x: PodContext)
    ensures Within(PodViolations(x), 0, 3)
  {
    var v1 := Report([], x.runAsNonRoot == Some(false), PodRunAsNonRoot);
    ReportInPlace([], 0, x.runAsNonRoot == Some(false), PodRunAsNonRoot);
    var v2 := Report(v1, x.runAsUser == Some(0), PodRunAsUser);
    ReportInPlace(v1, 0, x.runAsUser == Some(0), PodRunAsUser);
    ReportInPlace(v2, 0, x.seccomp.Some? && x.seccomp.value.kind == Unconfined, PodSeccomp);
  }

  lemma HardReportInPlace(x: ContainerContext)
    ensures Within(HardViolations(x), 3, 7)
  {
    var v1 := Report([], x.allowPrivilegeEscalation == Some(true), PrivilegeEscalation);
    ReportInPlace([], 3, x.allowPrivilegeEscalation == Some(true), PrivilegeEscalation);
    var v2 := Report(v1, x.privileged == Some(true), Privileged);
    ReportInPlace(v1, 3, x.privileged == Some(true), Privileged);
    var v3 := Report(v2, x.readOnlyRootFilesystem == Some(false), WritableRoot);
    ReportInPlace(v2, 3, x.readOnlyRootFilesystem == Some(false), WritableRoot);
    ReportInPlace(v3, 3, x.runAsNonRoot == Some(false), ContainerRunAsNonRoot);
  }

  lemma ContainerReportInPlace(x: ContainerContext)
    ensures Within(ContainerViolations(x), 3, 10)
  {
    HardReportInPlace(x);
    var v5 := Report(HardViolations(x), x.runAsUser == Some(0), ContainerRunAsUser);
    ReportInPlace(HardViolations(x), 3, x.runAsUser == Some(0), ContainerRunAsUser);
    var add := CapabilitiesOf(x).add;
    var v6 := Report(v5, add != [], AddedCapabilities(add));
    ReportInPlace(v5, 3, add != [], AddedCapabilities(add));
    ReportInPlace(v6, 3, x.seccomp.Some? && x.seccomp.value.kind == Unconfined, ContainerSeccomp);
  }

  // A report names each refused field once, the pod's before the container's, in the
  // order in which the merges look at them.
  lemma ViolationsInPlace(o: Option<Overrides>)
    ensures InPlace(Violations(o))
  {
    if PodOverride(o).Some? {
      PodReportInPlace(PodOverride(o).value);
    }
    if ContainerOverride(o).Some? {
      ContainerReportInPlace(ContainerOverride(o).value);
    }
    var a, b := MergePod(PodOverride(o)).1, MergeContainer(ContainerOverride(o)).1;
    assert Within(a, 0, 3) && Within(b, 3, 10);
  }

  lemma SecureContainerTwice(c: Container, a: ContainerContext, b: ContainerContext)
    ensures SecureContainer(SecureContainer(c, a), b) == SecureContainer(c, b)
  {
    if !MountsVolume(c, TMP_VOLUME) {
      assert TMP_MOUNT in c.mounts + [TMP_MOUNT];
      assert MountsVolume(SecureContainer(c, a), TMP_VOLUME);
    }
  }

  lemma SecureAllTwice(cs: seq<Container>, main: Option<string>, a: ContainerContext)
    ensures SecureAll(SecureAll(cs, main, a), main, a) == SecureAll(cs, main, a)
  {
    var once := SecureAll(cs, main, a);
    forall i | 0 <= i < |cs|
      ensures SecureAll(once, main, a)[i] == once[i]
    {
      var x := if main == Some(cs[i].name) then a else RESTRICTED_CONTAINER;
      SecureContainerTwice(cs[i], x, x);
    }
  }

  lemma ApplyIsIdempotent(p: Pod, main: string, o: Option<Overrides>)
    ensures Secured(Secured(p, main, o), main, o) == Secured(p, main, o)
  {
    SecureAllTwice(p.initContainers, None, RESTRICTED_CONTAINER);
    SecureAllTwice(p.containers, Some(main), MergeContainer(ContainerOverride(o)).0);
  }

  // ----- What a whole pod keeps -----

  // At most `extra` has been put behind xs.
  predicate Appended<T(==)>(xs: seq<T>, ys: seq<T>, extra: T) { ys == xs || ys == xs + [extra] }

  // Containers keep their number, order, names and mounts; at most the /tmp mount is
  // put behind the mounts, and the tmp volume behind the volumes. The main container
  // gets the merged context and every other one the restricted one; the token of the
  // service account is mounted only on request.
  lemma SecuredFrame(p: Pod, main: string, o: Option<Overrides>)
    ensures var q := Secured(p, main, o);
            && q.context == Some(MergePod(PodOverride(o)).0)
            && q.automount == Some(o.Some? && o.value.automount == Some(true))
            && Appended(p.volumes, q.volumes, "tmp") && (q.volumes == p.volumes <==> "tmp" in p.volumes)
            && |q.initContainers| == |p.initContainers| && |q.containers| == |p.containers|
            && (forall i :: 0 <= i < |p.initContainers| ==>
                  && (q.initContainers[i].mounts == p.initContainers[i].mounts
                      <==> exists j :: 0 <= j < |p.initContainers[i].mounts| && p.initContainers[i].mounts[j].volume == "tmp")
                  && q.initContainers[i].name == p.initContainers[i].name
                  && q.initContainers[i].context == Some(MergeContainer(None).0)
                  && Appended(p.initContainers[i].mounts, q.initContainers[i].mounts, Mount("tmp", "/tmp")))
            && (forall i :: 0 <= i < |p.containers| ==>
                  && (q.containers[i].mounts == p.containers[i].mounts
                      <==> exists j :: 0 <= j < |p.containers[i].mounts| && p.containers[i].mounts[j].volume == "tmp")
                  && q.containers[i].name == p.containers[i].name
                  && q.containers[i].context
                     == Some(MergeContainer(if p.containers[i].name == main then ContainerOverride(o) else None).0)
                  && Appended(p.containers[i].mounts, q.containers[i].mounts, Mount("tmp", "/tmp")))
  {
    assert |p.volumes + ["tmp"]| == |p.volumes| + 1;
    forall c: Container, x: ContainerContext
      ensures SecureContainer(c, x).mounts == c.mounts <==> exists j :: 0 <= j < |c.mounts| && c.mounts[j].volume == "tmp"
    {
      KeepsMountsIff(c, x);
    }
  }

  // The mounts stay as they are exactly when one of them is of the tmp volume.
  lemma KeepsMountsIff(c: Container, x: ContainerContext)
    ensures SecureContainer(c, x).mounts == c.mounts <==> exists j :: 0 <= j < |c.mounts| && c.mounts[j].volume == "tmp"
  {
    assert |c.mounts + [TMP_MOUNT]| == |c.mounts| + 1;
    if m :| m in c.mounts && m.volume == TMP_VOLUME {
      var j :| 0 <= j < |c.mounts| && c.mounts[j] == m;
      assert c.mounts[j].volume == "tmp";
    }
    if j :| 0 <= j < |c.mounts| && c.mounts[j].volume == "tmp" {
      assert c.mounts[j] in c.mounts;
    }
  }

  // What a pod gets where its override says nothing, or something refused.
  lemma PodDefaults(o: Option<PodContext>)
    ensures var m := MergePod(o).0;
            && m.runAsNonRoot == Some(true)
            && (o.None? || o.value.runAsUser in {None, Some(0)} ==> m.runAsUser == Some(65532))
            && (o.None? || o.value.runAsGroup.None? ==> m.runAsGroup == Some(65532))
            && (o.None? || o.value.fsGroup.None? ==> m.fsGroup == Some(65532))
            && (o.None? ==> m.supplementalGroups == [] && m.fsGroupChangePolicy.None? && m.seLinux.None?)
            && (o.None? || o.value.seccomp.None? || o.value.seccomp.value.kind == Unconfined ==>
                  m.seccomp == Some(Seccomp(RuntimeDefault, None)))
            && m.appArmor.None? && m.hostProcess.None? && m.sysctls == []
  {
  }

  lemma ContainerDefaults(o: Option<ContainerContext>)
    ensures var m := MergeContainer(o).0;
            && m.allowPrivilegeEscalation == Some(false) && m.privileged.None? && m.readOnlyRootFilesystem == Some(true)
            && m.runAsNonRoot == Some(true) && m.capabilities == Some(Capabilities([], ["ALL", "NET_RAW"]))
            && (o.None? || o.value.runAsUser in {None, Some(0)} ==> m.runAsUser.None?)
            && (o.None? ==> m.runAsGroup.None? && m.seLinux.None?)
            && (o.None? || o.value.seccomp.None? || o.value.seccomp.value.kind == Unconfined ==>
                  m.seccomp == Some(Seccomp(RuntimeDefault, None)))
            && m.procMount.None? && m.appArmor.None? && m.hostProcess.None?
  {
  }

  // ----- /tmp -----

  // Each container mounts the tmp volume, which the pod has; it is mounted at /tmp
  // unless the container already mounted that volume somewhere else only, because
  // the source looks for the volume's name, not for the path.
  lemma TmpMounted(p: Pod, main: string, o: Option<Overrides>, i: nat)
    requires i < |p.containers|
    ensures var q := Secured(p, main, o);
            && TMP_VOLUME in q.volumes && MountsVolume(q.containers[i], TMP_VOLUME)
            && (TMP_MOUNT in q.containers[i].mounts
                <==> !MountsVolume(p.containers[i], TMP_VOLUME) || TMP_MOUNT in p.containers[i].mounts)
  {
    SecuredMountsTmp(p.containers[i], Secured(p, main, o).containers[i].context.value);
  }

  lemma TmpMountedInit(p: Pod, main: string, o: Option<Overrides>, i: nat)
    requires i < |p.initContainers|
    ensures var q := Secured(p, main, o);
            && MountsVolume(q.initContainers[i], TMP_VOLUME)
            && (TMP_MOUNT in q.initContainers[i].mounts
                <==> !MountsVolume(p.initContainers[i], TMP_VOLUME) || TMP_MOUNT in p.initContainers[i].mounts)
  {
    SecuredMountsTmp(p.initContainers[i], RESTRICTED_CONTAINER);
  }

  lemma SecuredMountsTmp(c: Container, x: ContainerContext)
    ensures MountsVolume(SecureContainer(c, x), TMP_VOLUME)
    ensures TMP_MOUNT in SecureContainer(c, x).mounts <==> !MountsVolume(c, TMP_VOLUME) || TMP_MOUNT in c.mounts
  {
    assert TMP_MOUNT in c.mounts + [TMP_MOUNT] && TMP_MOUNT.volume == TMP_VOLUME;
  }
}
