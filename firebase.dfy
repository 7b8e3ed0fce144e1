/** The backend's `FirebaseConfig`: where the service-account key is read
    from, and the start-up step that initialises the Firebase Admin app at
    most once. The filesystem, the classpath and the SDK are oracles. */
module FirebaseSetup {
  import opened Wrappers
  import opened Strings
  import opened JavaLang

  const CLASSPATH_PREFIX: string := "classpath:"
  const FILE_PREFIX: string := "file:"

  /** An input stream's origin: a classpath resource or a filesystem path. */
  datatype Source = ClassPathResource(name: string) | FilePath(path: string)

  /** What the running process can observe: whether a filesystem path
      exists, whether a classpath resource exists, and how reading
      credentials from a source and initialising the app fails, if it does
      (a missing file or resource, a malformed key, an SDK error). */
  datatype Environment = Environment(
    fileExists: string -> bool,
    classpathExists: string -> bool,
    loadFailure: Source -> Option<JavaException>)

  /** `Path.of` on a Unix filesystem refuses a NUL character. */
  function InvalidPathException(input: string): JavaException {
    JavaException(InvalidPath, Some("Nul character not allowed: " + input))
  }

  /** `getServiceAccountStream(path)`, as the choice of source it makes.
      `keyPath` comes from a property whose default is the empty string, so
      it is never null here. */
  function SelectSource(path: string, env: Environment): (r: Result<Source, JavaException>)
    // "classpath:" is tested first, on the trimmed path, and its remainder is used as is
    ensures StartsWith(Trim(path), CLASSPATH_PREFIX) ==>
              r == Success(ClassPathResource(Trim(path)[|CLASSPATH_PREFIX|..]))
    ensures !StartsWith(Trim(path), CLASSPATH_PREFIX) && StartsWith(Trim(path), FILE_PREFIX) ==>
              r == Success(FilePath(Trim(path)[|FILE_PREFIX|..]))
    // an unprefixed path is a file unless only the classpath has it
    ensures !StartsWith(Trim(path), CLASSPATH_PREFIX) && !StartsWith(Trim(path), FILE_PREFIX) ==>
              if '\0' in Trim(path) then r == Failure(InvalidPathException(Trim(path)))
              else if !env.fileExists(Trim(path)) && env.classpathExists(Trim(path)) then
                r == Success(ClassPathResource(Trim(path)))
              else r == Success(FilePath(Trim(path)))
  {
    var trimmed := Trim(path);
    if StartsWith(trimmed, CLASSPATH_PREFIX) then Success(ClassPathResource(trimmed[|CLASSPATH_PREFIX|..]))
    else if StartsWith(trimmed, FILE_PREFIX) then Success(FilePath(trimmed[|FILE_PREFIX|..]))
    else if '\0' in trimmed then Failure(InvalidPathException(trimmed))
    else if env.fileExists(trimmed) then Success(FilePath(trimmed))
    else if env.classpathExists(trimmed) then Success(ClassPathResource(trimmed))
    else Success(FilePath(trimmed))
  }

  /** The name a source is opened by. */
  function SourceName(s: Source): string {
    match s
    case ClassPathResource(name) => name
    case FilePath(p) => p
  }

  /** Whatever source is chosen, its name is the trimmed path with at most
      the prefix cut off: nothing else is rewritten. */
  lemma SelectedNameIsSuffix(path: string, env: Environment)
    requires SelectSource(path, env).Success?
    ensures var name := SourceName(SelectSource(path, env).value);
            var trimmed := Trim(path);
            |name| <= |trimmed| && name == trimmed[|trimmed| - |name|..]
  {
  }

  /** Padding around the path does not change the choice. */
  lemma SelectSourceIgnoresPadding(lead: string, path: string, trail: string, env: Environment)
    requires AllTrimmable(lead) && AllTrimmable(trail) && Trimmed(path)
    ensures SelectSource(lead + path + trail, env) == SelectSource(path, env)
  {
    TrimOfPadded(lead, path, trail);
    TrimOfPadded([], path, []);
    assert [] + path + [] == path;
  }

  /** A prefixed path is chosen without looking at the filesystem or the
      classpath. */
  lemma PrefixedPathIgnoresOracles(path: string, env: Environment, env': Environment)
    requires StartsWith(Trim(path), CLASSPATH_PREFIX) || StartsWith(Trim(path), FILE_PREFIX)
    ensures SelectSource(path, env) == SelectSource(path, env')
  {
  }

  /** A path of the form "classpath:file:x" names the classpath resource
      "file:x": the classpath test comes first. */
  lemma ClasspathPrefixWins(path: string, env: Environment)
    requires StartsWith(Trim(path), CLASSPATH_PREFIX + FILE_PREFIX)
    ensures SelectSource(path, env).Success?
    ensures SelectSource(path, env).value.ClassPathResource?
    ensures StartsWith(SelectSource(path, env).value.name, FILE_PREFIX)
  {
    var t := Trim(path);
    var n := |CLASSPATH_PREFIX|;
    assert t[..n] == (CLASSPATH_PREFIX + FILE_PREFIX)[..n] == CLASSPATH_PREFIX;
    assert t[n..][..|FILE_PREFIX|] == (CLASSPATH_PREFIX + FILE_PREFIX)[n..] == FILE_PREFIX;
  }

  /** The outcome of the `try` block: the chosen source once its
      credentials load and the app initialises, or the exception. */
  function Attempt(keyPath: string, env: Environment): (r: Result<Source, JavaException>)
    ensures r.Success? ==> SelectSource(keyPath, env) == r && env.loadFailure(r.value).None?
    ensures r.Failure? ==>
              || (SelectSource(keyPath, env).Failure? && r.error == SelectSource(keyPath, env).error)
              || (SelectSource(keyPath, env).Success? && env.loadFailure(SelectSource(keyPath, env).value) == Some(r.error))
  {
    match SelectSource(keyPath, env)
    case Failure(e) => Failure(e)
    case Success(src) =>
      match env.loadFailure(src)
      case Some(e) => Failure(e)
      case None => Success(src)
  }

  const DISABLED: string := "Firebase disabled: FIREBASE_SERVICE_ACCOUNT_PATH is empty"
  const ALREADY_INITIALIZED: string := "Firebase already initialized"
  const INIT_FAILED: string := "Firebase initialization failed"

  function InitializedMessage(keyPath: string): string {
    "Firebase Admin initialized successfully (path: " + keyPath + ")"
  }

  datatype LogEntry = Warn(message: string) | Info(message: string) | Error(message: string, cause: JavaException)

  /** The process-wide Firebase state: the apps initialised so far (by the
      source of their credentials) and the log. */
  class FirebaseApps {
    var apps: seq<Source>
    var log: seq<LogEntry>

    constructor ()
      ensures apps == [] && log == []
    {
      apps, log := [], [];
    }
  }

  class FirebaseConfig {
    const keyPath: string

    constructor (keyPath: string)
      ensures this.keyPath == keyPath
    {
      this.keyPath := keyPath;
    }

    /** `init`: skip when no key path is configured or an app already
        exists; otherwise initialise from the selected source, logging (not
        rethrowing) any failure. It always returns normally. */
    method Init(firebase: FirebaseApps, env: Environment)
      modifies firebase
      ensures IsBlank(keyPath) ==>
                firebase.apps == old(firebase.apps) && firebase.log == old(firebase.log) + [Warn(DISABLED)]
      ensures !IsBlank(keyPath) && old(firebase.apps) != [] ==>
                firebase.apps == old(firebase.apps) && firebase.log == old(firebase.log) + [Info(ALREADY_INITIALIZED)]
      ensures !IsBlank(keyPath) && old(firebase.apps) == [] ==>
                match Attempt(keyPath, env)
                case Success(src) =>
                  firebase.apps == [src] && firebase.log == old(firebase.log) + [Info(InitializedMessage(keyPath))]
                case Failure(e) =>
                  firebase.apps == [] && firebase.log == old(firebase.log) + [Error(INIT_FAILED, e)]
      // at most one app, and one that exists is never replaced
      ensures |firebase.apps| <= 1 || firebase.apps == old(firebase.apps)
      ensures old(firebase.apps) != [] ==> firebase.apps == old(firebase.apps)
    {
      if IsBlank(keyPath) {
        firebase.log := firebase.log + [Warn(DISABLED)];
        return;
      }
      if firebase.apps != [] {
        firebase.log := firebase.log + [Info(ALREADY_INITIALIZED)];
        return;
      }
      var attempt := Attempt(keyPath, env);
      if attempt.Success? {
        firebase.apps := firebase.apps + [attempt.value];
        firebase.log := firebase.log + [Info(InitializedMessage(keyPath))];
      } else {
        firebase.log := firebase.log + [Error(INIT_FAILED, attempt.error)];
      }
    }
  }

  /** Start-up run twice (two configuration beans, or a context refresh):
      the second run never initialises another app. */
  method InitTwice(config: FirebaseConfig, firebase: FirebaseApps, env: Environment)
    requires firebase.apps == []
    modifies firebase
    ensures |firebase.apps| <= 1
    ensures firebase.apps != [] ==> Attempt(config.keyPath, env).Success? && firebase.apps == [Attempt(config.keyPath, env).value]
    ensures |firebase.log| == old(|firebase.log|) + 2
    ensures firebase.apps != [] ==> firebase.log[|firebase.log| - 1] == Info(ALREADY_INITIALIZED)
  {
    config.Init(firebase, env);
    config.Init(firebase, env);
  }
}
