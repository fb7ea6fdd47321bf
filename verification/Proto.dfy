/** Shared vocabulary: optional values, the bot spec the panel sends, and what the runtime reports. */
module Options {

  datatype Option<+T> = None | Some(value: T)
}

module Proto {

  import opened Options
  import opened Paths

  type BotId = string

  const RUNNING := "running"
  const STOPPED := "stopped"

  datatype Template = Template(id: string, image: string, install: string, start: string)

  datatype Limits = Limits(memoryMb: int, cpuMillicores: int, diskMb: int, pids: int)

  datatype BotSpec = BotSpec(
    botId: BotId,
    name: string,
    uid: int,
    deployId: string,
    artifactPath: string,
    artifactSha256: string,
    template: Template,
    limits: Limits,
    hardened: bool,
    env: map<string, string>,
    desired: string)

  /** What the runtime currently has for a bot; an empty container id means there is no container. */
  datatype Instance = Instance(containerId: string, deployId: string, running: bool, exitCode: int, oomKilled: bool)

  const NO_INSTANCE := Instance("", "", false, 0, false)

  /** An unexpected container exit. */
  datatype Event = Event(containerId: string, exitCode: int, oomKilled: bool)

  const MIN_UID := 1000
  const MAX_UID := 0x7fff_fffe
  const MIN_MEMORY_MB := 16
  const MIN_DISK_MB := 16

  predicate IsAlphaNum(c: char) {
    'A' <= c <= 'Z' || 'a' <= c <= 'z' || '0' <= c <= '9'
  }

  /** Whether an id is safe as a file and container name. */
  predicate ValidBotId(id: string) {
    && 1 <= |id| <= 64
    && IsAlphaNum(id[0])
    && forall i :: 1 <= i < |id| ==> IsAlphaNum(id[i]) || id[i] == '_' || id[i] == '-'
  }

  predicate ContainsAny(s: string, chars: string) {
    exists i :: 0 <= i < |s| && s[i] in chars
  }

  /** White space as Go's unicode package sees it. */
  predicate IsSpace(c: char) {
    || '\U{0009}' <= c <= '\U{000D}'
    || c in " \U{0085}\U{00A0}\U{1680}\U{2028}\U{2029}\U{202F}\U{205F}\U{3000}"
    || '\U{2000}' <= c <= '\U{200A}'
  }

  predicate IsBlank(s: string) {
    forall i :: 0 <= i < |s| ==> IsSpace(s[i])
  }

  predicate ValidEnv(env: map<string, string>) {
    forall k :: k in env ==> k != "" && !ContainsAny(k, "=\0") && !ContainsAny(env[k], "\0")
  }

  /** What the agent demands of a spec. */
  predicate ValidSpec(s: BotSpec) {
    && ValidBotId(s.botId)
    && MIN_UID <= s.uid <= MAX_UID
    && s.template.image != "" && !ContainsAny(s.template.image, " \t\n?#")
    && !IsBlank(s.template.start)
    && s.limits.memoryMb >= MIN_MEMORY_MB
    && s.limits.cpuMillicores >= 0 && s.limits.pids >= 0
    && s.limits.diskMb >= MIN_DISK_MB
    && (s.desired == RUNNING || s.desired == STOPPED)
    && (s.deployId != "" ==>
          ValidBotId(s.deployId) && s.artifactPath != "" && s.artifactPath[0] == '/' && |s.artifactSha256| == 64)
    && ValidEnv(s.env)
  }

  predicate InRange(c: char, first: char, last: char) { first <= c <= last }

  /** Up to 64 letters, digits, underscores and hyphens, the first a letter or digit. */
  lemma IdTakenIff(id: string)
    ensures ValidBotId(id) <==>
              && 0 < |id| <= 64 && id[0] !in {'_', '-'}
              && forall c :: c in id ==> InRange(c, 'A', 'Z') || InRange(c, 'a', 'z') || InRange(c, '0', '9') || c == '_' || c == '-'
  {
    if ValidBotId(id) {
      forall c | c in id ensures IsAlphaNum(c) || c == '_' || c == '-' {
        var i :| 0 <= i < |id| && id[i] == c;
      }
    } else if 0 < |id| <= 64 && id[0] !in {'_', '-'} {
      if IsAlphaNum(id[0]) {
        var i :| 1 <= i < |id| && !(IsAlphaNum(id[i]) || id[i] == '_' || id[i] == '-');
        assert id[i] in id;
      } else {
        assert id[0] in id;
      }
    }
  }

  /** So an id is one part of a path, and no option of a command: it can stand in file and container names. */
  lemma ValidIdIsOnePart(id: string)
    requires ValidBotId(id)
    ensures IsName(id) && '\0' !in id && id[0] != '-'
  {
    IdTakenIff(id);
    assert id[0] in id;
  }

  /**
   * Which specs the agent takes: an ordinary user, at least 16 MB of memory and of disk, no negative limit, one of the
   * two run states, an image and a start command that are there, an environment whose entries can be told apart, and
   * for a deploy an id, an absolute path and a digest.
   */
  lemma SpecTakenIff(s: BotSpec)
    ensures ValidSpec(s) <==>
              && ValidBotId(s.botId) && 1000 <= s.uid < 0x7fff_ffff
              && s.limits.memoryMb >= 16 && s.limits.diskMb >= 16 && s.limits.cpuMillicores >= 0 && s.limits.pids >= 0
              && s.desired in {"running", "stopped"}
              && |s.template.image| > 0 && (forall c :: c in " \t\n?#" ==> c !in s.template.image)
              && (exists i :: 0 <= i < |s.template.start| && !IsSpace(s.template.start[i]))
              && (forall k :: k in s.env ==> |k| > 0 && '=' !in k && '\0' !in k && '\0' !in s.env[k])
              && (s.deployId == "" || (ValidBotId(s.deployId) && |s.artifactSha256| == 64 && s.artifactPath != "" && s.artifactPath[0] == '/'))
  {
    hide ValidBotId, IsSpace;
    HasNone(s.template.image, " \t\n?#");
    forall k | k in s.env
      ensures ContainsAny(k, "=\0") <==> '=' in k || '\0' in k
      ensures ContainsAny(s.env[k], "\0") <==> '\0' in s.env[k]
    {
      HasNone(k, "=\0");
      HasNone(s.env[k], "\0");
    }
    hide ContainsAny;
  }

  lemma HasNone(s: string, chars: string)
    ensures !ContainsAny(s, chars) <==> forall c :: c in chars ==> c !in s
  {
    if exists c :: c in chars && c in s {
      var c :| c in chars && c in s;
      var i :| 0 <= i < |s| && s[i] == c;
      assert s[i] in chars;
    }
  }
}
