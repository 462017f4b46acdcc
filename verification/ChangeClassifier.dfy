/** The path classifier that selects continuous-integration jobs for a set of changed files. */
module ChangeClassifier {

  /** A job flag: the position of its field after the docs-only field of a change set. */
  type Flag = x: int | 0 <= x < 46

  const DOCUMENTATION: Flag := 0
  const CODE: Flag := 1
  const CPP: Flag := 2
  const CORE_TESTS: Flag := 3
  const PACKAGE: Flag := 4
  const MBEDTLS: Flag := 5
  const MBEDTLS_MACOS: Flag := 6
  const PYTHON: Flag := 7
  const EXAMPLES: Flag := 8
  const FORMAT: Flag := 9
  const PORTABLE: Flag := 10
  const DEBUG: Flag := 11
  const SHARED: Flag := 12
  const FFMPEG: Flag := 13
  const LIVE_TRANSMIT: Flag := 14
  const GSTREAMER: Flag := 15
  const VLC: Flag := 16
  const OBS: Flag := 17
  const OBS_PLATFORMS: Flag := 18
  const AEAD_PLATFORM: Flag := 19
  const MULTICAST: Flag := 20
  const SANITIZERS: Flag := 21
  const THREAD_SANITIZER: Flag := 22
  const FUZZ: Flag := 23
  const BENCHMARK: Flag := 24
  const TIMING: Flag := 25
  const INTEROP: Flag := 26
  const HANDSHAKE: Flag := 27
  const ENCRYPTED: Flag := 28
  const AEAD: Flag := 29
  const AEAD_FEC: Flag := 30
  const AEAD_GROUP: Flag := 31
  const AEAD_TIMING: Flag := 32
  const FILE: Flag := 33
  const FILE_BASE: Flag := 34
  const FILE_ENCRYPTED_BASE: Flag := 35
  const FILE_ENCRYPTED_RENDEZVOUS: Flag := 36
  const FILE_ENCRYPTED_FAULTS: Flag := 37
  const FILE_ENCRYPTED_ROLLOVER: Flag := 38
  const FILE_PEER_ERROR: Flag := 39
  const FILE_ROLLOVER: Flag := 40
  const FILE_RESILIENCE: Flag := 41
  const FILE_RENDEZVOUS: Flag := 42
  const FEC: Flag := 43
  const RENDEZVOUS: Flag := 44
  const FULL: Flag := 45

  /** The prefix, suffix and token tests the classifier puts to one path. */
  datatype Tests = Tests(
    liveTransmit: bool, cppSuffix: bool, apiContract: bool, aeadContract: bool, formatTool: bool, endsPy: bool,
    pythonTool: bool, mbedtlsTool: bool, documentationTool: bool, packaging: bool, packageFile: bool,
    fullValidation: bool, ffmpegTests: bool, sourceRevision: bool, gstreamerTests: bool, endsCOrH: bool,
    obsTests: bool, vlcTests: bool, inInterop: bool, inBenchmarks: bool, pySuffix: bool, scalabilityPeer: bool,
    inExamples: bool, inSources: bool, testOrDemo: bool, backendToken: bool, production: bool, threadToken: bool,
    fuzzed: bool, publicOrCompat: bool, platformToken: bool, establishment: bool, filterToken: bool,
    broadToken: bool, cryptoToken: bool, rendezvousToken: bool, fileDomain: bool, scorecard: bool, timingPeer: bool,
    commonHarness: bool, mtuOrStatistics: bool, aeadFec: bool, aeadGroup: bool, aeadTiming: bool, aead: bool,
    binding: bool, tlpktdrop: bool, receiveContract: bool, group: bool, fileOrPeerError: bool, fec: bool,
    encryption: bool, encryptedInterop: bool, handshakePeer: bool, encryptedFile: bool, peerError: bool,
    fileInterop: bool)

  const DOCUMENTATION_FILES: seq<string> :=
    ["CODE_OF_CONDUCT.md", "CONTRIBUTING.md", "LICENSE", "README.md", "SECURITY.md"]

  predicate EndsWith(path: string, suffix: string) {
    |suffix| <= |path| && path[|path| - |suffix|..] == suffix
  }

  predicate IsDocumentation(path: string) {
    || path in DOCUMENTATION_FILES
    || "docs/" <= path
    || ".github/ISSUE_TEMPLATE/" <= path
    || path == ".github/PULL_REQUEST_TEMPLATE.md"
    || EndsWith(path, ".md")
  }

  predicate QualifiesMulticast(path: string) {
    path == "tools/qualify_multicast.py" || path == "interop/tests/" + "test_multicast_qualification.py"
  }

  lemma LowerCaseScript(path: string)
    requires path != [] && path[|path| - 1] == 'y' && (path[0] == 't' || path[0] == 'i')
    ensures !IsDocumentation(path)
  {
  }

  /** A multicast qualification script is never documentation. */
  lemma MulticastIsCode(path: string)
    ensures QualifiesMulticast(path) ==> !IsDocumentation(path)
  {
    assert "tools/qualify_multicast.py"[0] == 't' && "tools/qualify_multicast.py"[25] == 'y';
    assert "interop/tests/"[0] == 'i' && "test_multicast_qualification.py"[30] == 'y';
    if QualifiesMulticast(path) {
      LowerCaseScript(path);
    }
  }

  predicate IsSpace(c: char) {
    c == ' ' || '\t' <= c <= '\r'
  }

  function TrimLeft(path: string): string {
    if path != [] && IsSpace(path[0]) then TrimLeft(path[1..]) else path
  }

  function TrimRight(path: string): string {
    if path != [] && IsSpace(path[|path| - 1]) then TrimRight(path[..|path| - 1]) else path
  }

  function Slashes(path: string): string {
    seq(|path|, i requires 0 <= i < |path| => if path[i] == '\\' then '/' else path[i])
  }

  function Normalized(path: string): string {
    var slashed := Slashes(TrimRight(TrimLeft(path)));
    if "./" <= slashed then slashed[2..] else slashed
  }

  predicate Blank(path: string) {
    TrimRight(TrimLeft(path)) == ""
  }

  lemma {:induction false} TrimmedLeft(path: string)
    ensures TrimLeft(path) == "" <==> forall i :: 0 <= i < |path| ==> IsSpace(path[i])
    ensures TrimLeft(path) != "" ==> !IsSpace(TrimLeft(path)[0])
  {
    if path != [] && IsSpace(path[0]) {
      TrimmedLeft(path[1..]);
      assert forall i :: 0 <= i < |path| - 1 ==> path[1..][i] == path[i + 1];
    }
  }

  lemma {:induction false} TrimmedRight(path: string)
    ensures path != "" && !IsSpace(path[0]) ==> TrimRight(path) != ""
  {
    if path != [] && IsSpace(path[|path| - 1]) {
      TrimmedRight(path[..|path| - 1]);
    }
  }

  /** A path is ignored exactly if it is all white space. */
  lemma BlankIff(path: string)
    ensures Blank(path) <==> forall i :: 0 <= i < |path| ==> IsSpace(path[i])
  {
    TrimmedLeft(path);
    TrimmedRight(TrimLeft(path));
  }

  /** A path that needs no normalisation is taken as it is. */
  lemma CleanKept(path: string)
    requires path != "" && !IsSpace(path[0]) && !IsSpace(path[|path| - 1]) && '\\' !in path && !("./" <= path)
    ensures Normalized(path) == path && !Blank(path) && PathSet([path]) == {path}
  {
    assert Slashes(path) == path;
  }

  /** The distinct normalised paths of a change. */
  function PathSet(paths: seq<string>): set<string> {
    set path | path in paths && !Blank(path) :: Normalized(path)
  }

  // ---------------------------------------------------------------- what one path selects

  function AllEncryptedFile(): set<Flag> {
    {INTEROP, FILE, FILE_ENCRYPTED_BASE, FILE_ENCRYPTED_RENDEZVOUS, FILE_ENCRYPTED_FAULTS, FILE_ENCRYPTED_ROLLOVER}
  }

  function AllFile(): set<Flag> {
    AllEncryptedFile() + {FILE_BASE, FILE_PEER_ERROR, FILE_ROLLOVER, FILE_RESILIENCE, FILE_RENDEZVOUS}
  }

  function AllInterop(): set<Flag> {
    AllFile() + {HANDSHAKE, ENCRYPTED, AEAD, AEAD_FEC, AEAD_GROUP, AEAD_TIMING, FEC, RENDEZVOUS}
  }

  predicate Selectable(flag: Flag) {
    flag != OBS_PLATFORMS
  }

  /** Every flag but the one that only a forced run sets. */
  function Everything(): set<Flag> {
    set flag: Flag | 0 <= flag < 46 && Selectable(flag)
  }

  function When(condition: bool, flags: set<Flag>): set<Flag> {
    if condition then flags else {}
  }

  function MbedtlsFlags(t: Tests): set<Flag> {
    {MBEDTLS} + When(!t.testOrDemo || t.backendToken, {MBEDTLS_MACOS})
  }

  /** Crypto, rendezvous and file domains overlap, so their profiles add up. */
  function DomainProfiles(t: Tests): set<Flag> {
    When(t.cryptoToken, {ENCRYPTED, AEAD, AEAD_FEC, AEAD_GROUP, AEAD_TIMING, RENDEZVOUS} + AllEncryptedFile())
    + When(t.rendezvousToken, {INTEROP, RENDEZVOUS})
    + When(t.fileDomain, AllFile())
  }

  /** The profiles of a production source file: the first matching family decides. */
  function ProductionProfiles(t: Tests): set<Flag> {
    if t.establishment then
      {INTEROP, HANDSHAKE, ENCRYPTED, AEAD, AEAD_FEC, AEAD_GROUP, AEAD_TIMING, FILE, FILE_BASE, FILE_ENCRYPTED_BASE, FEC}
    else if t.filterToken then {INTEROP, FEC, AEAD_FEC}
    else if t.broadToken || !(t.cryptoToken || t.rendezvousToken || t.fileDomain) then AllInterop()
    else DomainProfiles(t)
  }

  /** The builds a C++ file needs. */
  function CppBuild(t: Tests): set<Flag> {
    {CODE, CPP, CORE_TESTS, FORMAT, PORTABLE, SANITIZERS}
    + When(t.production, {FFMPEG, GSTREAMER, VLC, OBS, EXAMPLES, AEAD_PLATFORM, LIVE_TRANSMIT})
    + TokenBuilds(t)
  }

  function TokenBuilds(t: Tests): set<Flag> {
    When(t.threadToken, {THREAD_SANITIZER})
    + When(t.fuzzed, {FUZZ})
    + When(t.publicOrCompat, {SHARED})
    + When(t.platformToken, {AEAD_PLATFORM})
  }

  function CppFlags(t: Tests): set<Flag> {
    MbedtlsFlags(t) + CppBuild(t) + When(t.production, ProductionProfiles(t))
  }

  function FileHarnessProfiles(t: Tests): set<Flag> {
    if t.encryptedFile then AllEncryptedFile()
    else if t.peerError then {INTEROP, FILE, FILE_PEER_ERROR}
    else if t.fileInterop then {INTEROP, FILE, FILE_BASE, FILE_ROLLOVER, FILE_RESILIENCE, FILE_RENDEZVOUS}
    else AllFile()
  }

  /** The profiles of an interoperability harness file: the first matching name decides. */
  function HarnessProfiles(t: Tests): set<Flag> {
    if t.scorecard then {}
    else if t.timingPeer then {TIMING, INTEROP, AEAD_GROUP, AEAD_TIMING}
    else if t.commonHarness then AllInterop()
    else if t.mtuOrStatistics then {INTEROP, HANDSHAKE}
    else if t.aeadFec then {INTEROP, AEAD_FEC}
    else if t.aeadGroup then {INTEROP, AEAD_GROUP}
    else if t.aeadTiming then {INTEROP, AEAD_TIMING}
    else if t.aead then {INTEROP, AEAD}
    else LegacyHarnessProfiles(t)
  }

  function LegacyHarnessProfiles(t: Tests): set<Flag> {
    if t.binding || t.tlpktdrop || t.receiveContract then {INTEROP, HANDSHAKE}
    else if t.group then {INTEROP, HANDSHAKE, AEAD_GROUP}
    else if t.rendezvousToken then {INTEROP, RENDEZVOUS}
    else if t.fileOrPeerError then FileHarnessProfiles(t)
    else if t.fec then {INTEROP, FEC, AEAD_FEC}
    else if t.encryption then {INTEROP, ENCRYPTED} + When(t.encryptedInterop, {AEAD})
    else if t.handshakePeer then {INTEROP, HANDSHAKE}
    else AllInterop()
  }

  function BenchmarkFlags(t: Tests, cpp: set<Flag>): set<Flag> {
    if t.pySuffix then {CODE, PYTHON}
    else if t.cppSuffix then cpp + {BENCHMARK} + When(t.scalabilityPeer, {THREAD_SANITIZER})
    else Everything()
  }

  function ExampleFlags(t: Tests): set<Flag> {
    if t.cppSuffix then {CODE, EXAMPLES, PORTABLE, CPP, FORMAT} + MbedtlsFlags(t)
    else if t.pySuffix then {CODE, EXAMPLES, PORTABLE, PYTHON}
    else Everything()
  }

  /** What a file outside the named lists selects, by its root directory. */
  function RootFlags(t: Tests, cpp: set<Flag>, harness: set<Flag>): set<Flag> {
    if t.inInterop then (if t.cppSuffix then cpp else {CODE, PYTHON}) + harness
    else if t.inBenchmarks then BenchmarkFlags(t, cpp)
    else if t.inExamples then ExampleFlags(t)
    else if t.cppSuffix || t.inSources then cpp
    else Everything()
  }

  /** What a file of one of the application test trees selects. */
  function TreeFlags(t: Tests, root: set<Flag>): set<Flag> {
    if t.ffmpegTests then {CODE, SHARED, FFMPEG, GSTREAMER, VLC}
    else if t.sourceRevision then {CODE, PYTHON, GSTREAMER, VLC}
    else if t.gstreamerTests || t.obsTests || t.vlcTests then ApplicationFlags(t)
    else root
  }

  function ApplicationBase(t: Tests): set<Flag> {
    if t.gstreamerTests then {CODE, GSTREAMER, VLC, OBS} else {CODE, if t.obsTests then OBS else VLC}
  }

  function ApplicationFlags(t: Tests): set<Flag> {
    ApplicationBase(t) + When(t.endsPy && !t.gstreamerTests, {PYTHON}) + When(t.endsCOrH, {FORMAT})
  }

  function PackageBase(): set<Flag> {
    {LIVE_TRANSMIT, CODE, PACKAGE, MBEDTLS, MBEDTLS_MACOS, PORTABLE, SHARED, AEAD_PLATFORM, FFMPEG, GSTREAMER,
     DOCUMENTATION, VLC, OBS, PYTHON}
  }

  function PackageFlags(t: Tests): set<Flag> {
    PackageBase() + When(t.cppSuffix, {FORMAT})
  }

  function AeadContractFlags(): set<Flag> {
    {DOCUMENTATION, CODE, PYTHON, MBEDTLS, MBEDTLS_MACOS, INTEROP, AEAD, AEAD_FEC, AEAD_GROUP, AEAD_TIMING, AEAD_PLATFORM}
  }

  /** What a path that is not documentation selects. */
  function NamedFlags(t: Tests, tree: set<Flag>): set<Flag> {
    if t.apiContract then {DOCUMENTATION, CODE, PYTHON}
    else if t.aeadContract then AeadContractFlags()
    else if t.formatTool then {CODE, FORMAT} + When(t.endsPy, {PYTHON})
    else if t.pythonTool then {CODE, PYTHON}
    else if t.mbedtlsTool then {CODE, PYTHON, MBEDTLS, MBEDTLS_MACOS}
    else if t.documentationTool then {CODE, PYTHON, DOCUMENTATION}
    else if t.packaging then {CODE, PYTHON}
    else if t.packageFile then PackageFlags(t)
    else if t.fullValidation then Everything()
    else tree
  }

  function CodeFlags(t: Tests): set<Flag> {
    NamedFlags(t, TreeFlags(t, RootFlags(t, CppFlags(t), HarnessProfiles(t))))
  }

  function LiveTransmitBase(): set<Flag> {
    {DOCUMENTATION, CODE, LIVE_TRANSMIT, PYTHON}
  }

  function LiveTransmitFlags(t: Tests): set<Flag> {
    LiveTransmitBase() + When(t.cppSuffix, {FORMAT})
  }

  // ---------------------------------------------------------------- targeted profiles

  /** One row of a table that is read from the top: the first row that applies decides. */
  datatype Target = Target(applies: bool, profiles: set<Flag>)

  ghost predicate Decides(table: seq<Target>, k: nat) {
    k < |table| && table[k].applies && forall j :: 0 <= j < k ==> !table[j].applies
  }

  ghost function FilePart(): set<Flag> {
    {FILE_BASE, FILE_PEER_ERROR, FILE_ROLLOVER, FILE_RESILIENCE, FILE_RENDEZVOUS, FILE_ENCRYPTED_BASE,
     FILE_ENCRYPTED_RENDEZVOUS, FILE_ENCRYPTED_FAULTS, FILE_ENCRYPTED_ROLLOVER}
  }

  ghost function EveryProfile(): set<Flag> {
    FilePart() + {HANDSHAKE, ENCRYPTED, AEAD, AEAD_FEC, AEAD_GROUP, AEAD_TIMING, FEC, RENDEZVOUS}
  }

  ghost function EncryptedFilePart(): set<Flag> {
    {FILE_ENCRYPTED_BASE, FILE_ENCRYPTED_RENDEZVOUS, FILE_ENCRYPTED_FAULTS, FILE_ENCRYPTED_ROLLOVER}
  }

  /** The profiles each kind of harness file is meant to exercise; what no row names is in the next table. */
  ghost function HarnessTable(t: Tests): seq<Target> {
    [Target(t.scorecard, {}), Target(t.timingPeer, {AEAD_GROUP, AEAD_TIMING}), Target(t.commonHarness, EveryProfile()),
     Target(t.mtuOrStatistics, {HANDSHAKE}), Target(t.aeadFec, {AEAD_FEC}), Target(t.aeadGroup, {AEAD_GROUP}),
     Target(t.aeadTiming, {AEAD_TIMING}), Target(t.aead, {AEAD})]
  }

  ghost function LegacyTable(t: Tests, file: set<Flag>): seq<Target> {
    [Target(t.binding, {HANDSHAKE}), Target(t.tlpktdrop, {HANDSHAKE}), Target(t.receiveContract, {HANDSHAKE}),
     Target(t.group, {HANDSHAKE, AEAD_GROUP}), Target(t.rendezvousToken, {RENDEZVOUS}), Target(t.fileOrPeerError, file),
     Target(t.fec, {FEC, AEAD_FEC}), Target(t.encryption && t.encryptedInterop, {ENCRYPTED, AEAD}),
     Target(t.encryption, {ENCRYPTED}), Target(t.handshakePeer, {HANDSHAKE}), Target(true, EveryProfile())]
  }

  ghost function FileTable(t: Tests): seq<Target> {
    [Target(t.encryptedFile, EncryptedFilePart()), Target(t.peerError, {FILE_PEER_ERROR}),
     Target(t.fileInterop, {FILE_BASE, FILE_ROLLOVER, FILE_RESILIENCE, FILE_RENDEZVOUS}), Target(true, FilePart())]
  }

  /** The profiles of a selection, without the flags that only summarise them. */
  ghost predicate Targets(f: set<Flag>, profiles: set<Flag>) {
    forall flag :: IsProfile(flag) ==> (flag in f <==> flag in profiles)
  }

  lemma WholeTargets()
    ensures Targets(AllInterop(), EveryProfile()) && Targets(AllFile(), FilePart())
    ensures Targets(AllEncryptedFile(), EncryptedFilePart())
  {
  }

  lemma FileTargets(t: Tests, k: nat)
    requires Decides(FileTable(t), k)
    ensures Targets(FileHarnessProfiles(t), FileTable(t)[k].profiles)
  {
    WholeTargets();
    var table := FileTable(t);
    assert table[0].applies == t.encryptedFile && table[1].applies == t.peerError && table[2].applies == t.fileInterop;
  }

  lemma LegacyTargets(t: Tests, file: set<Flag>, k: nat)
    requires Decides(LegacyTable(t, file), k) && Targets(FileHarnessProfiles(t), file)
    ensures Targets(LegacyHarnessProfiles(t), LegacyTable(t, file)[k].profiles)
  {
    WholeTargets();
    var table := LegacyTable(t, file);
    assert table[0].applies == t.binding && table[1].applies == t.tlpktdrop && table[2].applies == t.receiveContract;
    assert table[3].applies == t.group && table[4].applies == t.rendezvousToken && table[5].applies == t.fileOrPeerError;
    assert table[6].applies == t.fec && table[7].applies == (t.encryption && t.encryptedInterop);
    assert table[8].applies == t.encryption && table[9].applies == t.handshakePeer;
  }

  /** A named harness file selects exactly the profiles of the first row that applies. */
  lemma HarnessTargets(t: Tests, k: nat)
    requires Decides(HarnessTable(t), k)
    ensures Targets(HarnessProfiles(t), HarnessTable(t)[k].profiles)
  {
    WholeTargets();
    var table := HarnessTable(t);
    assert table[0].applies == t.scorecard && table[1].applies == t.timingPeer && table[2].applies == t.commonHarness;
    assert table[3].applies == t.mtuOrStatistics && table[4].applies == t.aeadFec && table[5].applies == t.aeadGroup;
    assert table[6].applies == t.aeadTiming && table[7].applies == t.aead;
  }

  /** Any other harness file is targeted by the legacy names, and a file no name fits selects every profile. */
  lemma OtherHarnessTargets(t: Tests, k: nat, l: nat)
    requires (forall j :: 0 <= j < 8 ==> !HarnessTable(t)[j].applies) && Decides(FileTable(t), k)
    requires Decides(LegacyTable(t, FileTable(t)[k].profiles), l)
    ensures Targets(HarnessProfiles(t), LegacyTable(t, FileTable(t)[k].profiles)[l].profiles)
  {
    FileTargets(t, k);
    LegacyTargets(t, FileTable(t)[k].profiles, l);
    var table := HarnessTable(t);
    assert table[0].applies == t.scorecard && table[1].applies == t.timingPeer && table[2].applies == t.commonHarness;
    assert table[3].applies == t.mtuOrStatistics && table[4].applies == t.aeadFec && table[5].applies == t.aeadGroup;
    assert table[6].applies == t.aeadTiming && table[7].applies == t.aead;
  }

  /** When a C++ file needs each of the builds. */
  ghost predicate NeedsBuild(t: Tests, flag: Flag) {
    || flag in {CODE, CPP, CORE_TESTS, FORMAT, PORTABLE, SANITIZERS, MBEDTLS}
    || (flag == MBEDTLS_MACOS && (!t.testOrDemo || t.backendToken))
    || (flag == THREAD_SANITIZER && t.threadToken) || (flag == FUZZ && t.fuzzed)
    || (flag == SHARED && t.publicOrCompat) || (flag == AEAD_PLATFORM && (t.platformToken || t.production))
    || (flag in {FFMPEG, GSTREAMER, VLC, OBS, EXAMPLES, LIVE_TRANSMIT} && t.production)
  }

  lemma TokenTargets(t: Tests, flag: Flag)
    ensures flag in TokenBuilds(t) <==>
      || (flag == THREAD_SANITIZER && t.threadToken) || (flag == FUZZ && t.fuzzed)
      || (flag == SHARED && t.publicOrCompat) || (flag == AEAD_PLATFORM && t.platformToken)
  {
  }

  lemma BuildTargets(t: Tests, flag: Flag)
    ensures flag in MbedtlsFlags(t) + CppBuild(t) <==> NeedsBuild(t, flag)
  {
    TokenTargets(t, flag);
  }

  /** Benchmarks and examples: a script is only run, other C++ is built, anything unknown selects everything. */
  lemma RootTargets(t: Tests, cpp: set<Flag>, flag: Flag)
    ensures flag in BenchmarkFlags(t, cpp) <==>
      if t.pySuffix then flag in {CODE, PYTHON}
      else if t.cppSuffix then flag in cpp || flag == BENCHMARK || (flag == THREAD_SANITIZER && t.scalabilityPeer)
      else flag in Everything()
    ensures flag in ExampleFlags(t) <==>
      if t.cppSuffix then
        flag in {CODE, EXAMPLES, PORTABLE, CPP, FORMAT, MBEDTLS}
        || (flag == MBEDTLS_MACOS && (!t.testOrDemo || t.backendToken))
      else if t.pySuffix then flag in {CODE, EXAMPLES, PORTABLE, PYTHON}
      else flag in Everything()
  {
  }

  /** The profiles of a production file whose domains are known: every domain it touches is covered, and nothing else. */
  ghost predicate Touches(t: Tests, flag: Flag) {
    || (t.cryptoToken && (flag in EncryptedFilePart() || flag in {ENCRYPTED, AEAD, AEAD_FEC, AEAD_GROUP, AEAD_TIMING}))
    || ((t.cryptoToken || t.rendezvousToken) && flag == RENDEZVOUS)
    || (t.fileDomain && flag in FilePart())
  }

  lemma DomainTargets(t: Tests, flag: Flag)
    requires IsProfile(flag)
    ensures flag in DomainProfiles(t) <==> Touches(t, flag)
  {
    WholeTargets();
  }

  lemma EstablishmentTargets(t: Tests, flag: Flag)
    requires IsProfile(flag) && (t.establishment || t.filterToken)
    ensures flag in ProductionProfiles(t) <==>
      if t.establishment then
        flag in {HANDSHAKE, ENCRYPTED, AEAD, AEAD_FEC, AEAD_GROUP, AEAD_TIMING, FILE_BASE, FILE_ENCRYPTED_BASE, FEC}
      else flag in {FEC, AEAD_FEC}
  {
  }

  /** Outside the families that decide on their own, a file of broad effect or of no known domain selects everything. */
  lemma ProductionTargets(t: Tests, flag: Flag)
    requires IsProfile(flag) && !t.establishment && !t.filterToken
    ensures flag in ProductionProfiles(t) <==>
      t.broadToken || !(t.cryptoToken || t.rendezvousToken || t.fileDomain) || Touches(t, flag)
  {
    DomainTargets(t, flag);
    WholeTargets();
    EveryOne(flag);
  }

  lemma EveryOne(flag: Flag)
    requires IsProfile(flag)
    ensures flag in EveryProfile()
  {
  }

  // ---------------------------------------------------------------- coherence of one path

  predicate IsFileProfile(flag: Flag) {
    FILE_BASE <= flag <= FILE_RENDEZVOUS
  }

  /** The flags behind the reference profiles, apart from the scalability benchmark. */
  predicate IsProfile(flag: Flag) {
    IsFileProfile(flag) || HANDSHAKE <= flag <= AEAD_TIMING || flag == FEC || flag == RENDEZVOUS
  }

  predicate AnyFile(f: set<Flag>) {
    || FILE_BASE in f || FILE_ENCRYPTED_BASE in f || FILE_ENCRYPTED_RENDEZVOUS in f || FILE_ENCRYPTED_FAULTS in f
    || FILE_ENCRYPTED_ROLLOVER in f || FILE_PEER_ERROR in f || FILE_ROLLOVER in f || FILE_RESILIENCE in f
    || FILE_RENDEZVOUS in f
  }

  predicate AnyProfile(f: set<Flag>) {
    || AnyFile(f) || HANDSHAKE in f || ENCRYPTED in f || AEAD in f || AEAD_FEC in f || AEAD_GROUP in f
    || AEAD_TIMING in f || FEC in f || RENDEZVOUS in f
  }

  /** The summary flags agree with the flags they summarise, and the forced-run flag stays off. */
  predicate Coherent(f: set<Flag>) {
    && (INTEROP in f <==> AnyProfile(f))
    && (FILE in f <==> AnyFile(f))
    && (MBEDTLS_MACOS in f ==> MBEDTLS in f)
    && OBS_PLATFORMS !in f
  }

  /** A flag that says nothing about reference profiles or forced runs. */
  predicate Neutral(flag: Flag) {
    !IsProfile(flag) && flag != INTEROP && flag != FILE && flag != OBS_PLATFORMS
  }

  predicate Plain(f: set<Flag>) {
    && AllNeutral(f)
    && (MBEDTLS_MACOS in f ==> MBEDTLS in f)
  }

  lemma PlainCoherent(f: set<Flag>)
    requires Plain(f)
    ensures Coherent(f) && INTEROP !in f
  {
  }

  lemma CoherentUnion(a: set<Flag>, b: set<Flag>)
    requires Coherent(a) && Coherent(b)
    ensures Coherent(a + b)
  {
  }

  lemma AllInteropCoherent()
    ensures Coherent(AllInterop()) && INTEROP in AllInterop()
    ensures Coherent(AllFile()) && INTEROP in AllFile()
    ensures Coherent(AllEncryptedFile()) && INTEROP in AllEncryptedFile()
  {
  }

  lemma DomainCoherent(t: Tests)
    ensures Coherent(DomainProfiles(t))
    ensures INTEROP in DomainProfiles(t) <==> t.cryptoToken || t.rendezvousToken || t.fileDomain
  {
    var secret := {ENCRYPTED, AEAD, AEAD_FEC, AEAD_GROUP, AEAD_TIMING, RENDEZVOUS} + AllEncryptedFile();
    assert Coherent(secret) && Coherent({INTEROP, RENDEZVOUS});
    AllInteropCoherent();
    PlainCoherent({});
    CoherentUnion(When(t.cryptoToken, secret), When(t.rendezvousToken, {INTEROP, RENDEZVOUS}));
    CoherentUnion(When(t.cryptoToken, secret) + When(t.rendezvousToken, {INTEROP, RENDEZVOUS}),
      When(t.fileDomain, AllFile()));
  }

  lemma ProductionCoherent(t: Tests)
    ensures Coherent(ProductionProfiles(t)) && INTEROP in ProductionProfiles(t)
  {
    AllInteropCoherent();
    DomainCoherent(t);
  }

  lemma FileHarnessCoherent(t: Tests)
    ensures Coherent(FileHarnessProfiles(t)) && INTEROP in FileHarnessProfiles(t)
  {
    AllInteropCoherent();
  }

  lemma LegacyHarnessCoherent(t: Tests)
    ensures Coherent(LegacyHarnessProfiles(t)) && INTEROP in LegacyHarnessProfiles(t)
  {
    AllInteropCoherent();
    FileHarnessCoherent(t);
  }

  lemma HarnessCoherent(t: Tests)
    ensures Coherent(HarnessProfiles(t))
    ensures INTEROP in HarnessProfiles(t) <==> !t.scorecard
  {
    AllInteropCoherent();
    LegacyHarnessCoherent(t);
  }

  predicate AllNeutral(f: set<Flag>) {
    forall flag :: flag in f ==> Neutral(flag)
  }

  lemma TokensNeutral(t: Tests)
    ensures AllNeutral(TokenBuilds(t)) && MBEDTLS_MACOS !in TokenBuilds(t)
  {
  }

  lemma BuildNeutral(t: Tests)
    ensures AllNeutral(CppBuild(t)) && CODE in CppBuild(t) && MBEDTLS_MACOS !in CppBuild(t)
  {
    TokensNeutral(t);
  }

  lemma BuildPlain(t: Tests)
    ensures Plain(MbedtlsFlags(t) + CppBuild(t)) && CODE in CppBuild(t)
  {
    BuildNeutral(t);
    assert AllNeutral(MbedtlsFlags(t));
  }

  lemma Extend(build: set<Flag>, profiles: set<Flag>, production: bool)
    requires Plain(build) && CODE in build && Coherent(profiles) && INTEROP in profiles
    ensures var all := build + When(production, profiles);
      Coherent(all) && CODE in all && (INTEROP in all <==> production)
  {
  }

  lemma CppCoherent(t: Tests)
    ensures Coherent(CppFlags(t)) && CODE in CppFlags(t)
    ensures INTEROP in CppFlags(t) <==> t.production
  {
    ProductionCoherent(t);
    BuildPlain(t);
    Extend(MbedtlsFlags(t) + CppBuild(t), ProductionProfiles(t), t.production);
  }

  lemma BenchmarkCoherent(t: Tests, cpp: set<Flag>)
    requires Coherent(cpp) && CODE in cpp
    ensures Coherent(BenchmarkFlags(t, cpp)) && CODE in BenchmarkFlags(t, cpp)
  {
    var extra := {BENCHMARK} + When(t.scalabilityPeer, {THREAD_SANITIZER});
    PlainCoherent(extra);
    CoherentUnion(cpp, extra);
    assert cpp + {BENCHMARK} + When(t.scalabilityPeer, {THREAD_SANITIZER}) == cpp + extra;
    PlainCoherent({CODE, PYTHON});
  }

  lemma ExampleCoherent(t: Tests)
    ensures Coherent(ExampleFlags(t)) && CODE in ExampleFlags(t)
  {
    PlainCoherent({CODE, EXAMPLES, PORTABLE, CPP, FORMAT} + MbedtlsFlags(t));
    PlainCoherent({CODE, EXAMPLES, PORTABLE, PYTHON});
  }

  lemma RootCoherent(t: Tests, cpp: set<Flag>, harness: set<Flag>)
    requires Coherent(cpp) && CODE in cpp && Coherent(harness)
    ensures Coherent(RootFlags(t, cpp, harness)) && CODE in RootFlags(t, cpp, harness)
  {
    BenchmarkCoherent(t, cpp);
    ExampleCoherent(t);
    PlainCoherent({CODE, PYTHON});
    CoherentUnion(cpp, harness);
    CoherentUnion({CODE, PYTHON}, harness);
  }

  lemma TreeCoherent(t: Tests, root: set<Flag>)
    requires Coherent(root) && CODE in root
    ensures Coherent(TreeFlags(t, root)) && CODE in TreeFlags(t, root)
  {
    if t.ffmpegTests || t.sourceRevision || t.gstreamerTests || t.obsTests || t.vlcTests {
      PlainCoherent(TreeFlags(t, root));
    }
  }

  lemma ConstantsCoherent()
    ensures Coherent(Everything()) && CODE in Everything()
    ensures Coherent(AeadContractFlags()) && CODE in AeadContractFlags()
  {
  }

  lemma PackageCoherent(t: Tests)
    ensures Coherent(PackageFlags(t)) && CODE in PackageFlags(t)
  {
    PlainCoherent(PackageFlags(t));
  }

  lemma ToolsCoherent(t: Tests)
    ensures Coherent({DOCUMENTATION, CODE, PYTHON}) && Coherent({CODE, FORMAT} + When(t.endsPy, {PYTHON}))
    ensures Coherent({CODE, PYTHON}) && Coherent({CODE, PYTHON, MBEDTLS, MBEDTLS_MACOS})
  {
    PlainCoherent({DOCUMENTATION, CODE, PYTHON});
    PlainCoherent({CODE, FORMAT} + When(t.endsPy, {PYTHON}));
    PlainCoherent({CODE, PYTHON});
    PlainCoherent({CODE, PYTHON, MBEDTLS, MBEDTLS_MACOS});
  }

  lemma NamedCoherent(t: Tests, tree: set<Flag>)
    requires Coherent(tree) && CODE in tree
    ensures Coherent(NamedFlags(t, tree)) && CODE in NamedFlags(t, tree)
  {
    ConstantsCoherent();
    PackageCoherent(t);
    ToolsCoherent(t);
    assert {CODE, PYTHON, DOCUMENTATION} == {DOCUMENTATION, CODE, PYTHON};
  }

  /** Every path that is not documentation selects code, and its summary flags agree with its profiles. */
  lemma CodeCoherent(t: Tests)
    ensures Coherent(CodeFlags(t)) && CODE in CodeFlags(t)
  {
    CppCoherent(t);
    HarnessCoherent(t);
    RootCoherent(t, CppFlags(t), HarnessProfiles(t));
    TreeCoherent(t, RootFlags(t, CppFlags(t), HarnessProfiles(t)));
    NamedCoherent(t, TreeFlags(t, RootFlags(t, CppFlags(t), HarnessProfiles(t))));
  }

  // ---------------------------------------------------------------- what a set of paths selects

  datatype Outcome = Outcome(docs: bool, flags: set<Flag>)

  function PathOutcome(documentation: bool, t: Tests, code: set<Flag>): Outcome {
    if t.liveTransmit then Outcome(false, LiveTransmitFlags(t))
    else if documentation then Outcome(true, {DOCUMENTATION})
    else Outcome(false, code)
  }

  /** What each path selects, given the tests put to it. */
  ghost function OutcomeOf(tests: string -> Tests): string -> Outcome {
    path => PathOutcome(IsDocumentation(path), tests(path), CodeFlags(tests(path)))
  }

  ghost predicate SelectedBy(paths: set<string>, of: string -> Outcome, flag: Flag) {
    exists path :: path in paths && flag in of(path).flags
  }

  ghost predicate ForMulticast(paths: set<string>) {
    exists path :: path in paths && QualifiesMulticast(path)
  }

  ghost predicate IsSelected(paths: set<string>, of: string -> Outcome, flag: Flag) {
    || SelectedBy(paths, of, flag)
    || (flag == MULTICAST && (SelectedBy(paths, of, CPP) || SelectedBy(paths, of, EXAMPLES) || ForMulticast(paths)))
  }

  /** The job flags of a change: the union over its paths, with multicast following from C++ and examples. */
  ghost function Selected(paths: set<string>, of: string -> Outcome): set<Flag> {
    set flag: Flag | 0 <= flag < 46 && IsSelected(paths, of, flag)
  }

  ghost predicate DocsOnly(paths: set<string>, of: string -> Outcome) {
    forall path :: path in paths ==> of(path).docs
  }

  /** Job selection is a join homomorphism: flags of a union are the union of flags, docs-only the conjunction. */
  lemma JoinHomomorphism(a: set<string>, b: set<string>, of: string -> Outcome)
    ensures Selected(a + b, of) == Selected(a, of) + Selected(b, of)
    ensures DocsOnly(a + b, of) <==> DocsOnly(a, of) && DocsOnly(b, of)
  {
  }

  /** What every path's outcome satisfies on its own. */
  ghost predicate Sound(path: string, outcome: Outcome) {
    && Coherent(outcome.flags)
    && (CODE in outcome.flags <==> !outcome.docs)
    && (outcome.docs ==> outcome.flags == {DOCUMENTATION} && !QualifiesMulticast(path))
  }

  lemma PathSound(path: string, documentation: bool, t: Tests, code: set<Flag>)
    requires Coherent(code) && CODE in code
    requires QualifiesMulticast(path) ==> !documentation
    ensures Sound(path, PathOutcome(documentation, t, code))
  {
    PlainCoherent(LiveTransmitFlags(t));
    PlainCoherent({DOCUMENTATION});
  }

  /** A selection is coherent, selects code exactly unless docs-only, and docs-only leaves only documentation. */
  ghost predicate SoundSelection(flags: set<Flag>, docs: bool) {
    && Coherent(flags)
    && (CODE in flags <==> !docs)
    && (docs ==> flags <= {DOCUMENTATION})
  }

  lemma SelectionSound(paths: set<string>, of: string -> Outcome)
    requires forall path :: path in paths ==> Sound(path, of(path))
    ensures SoundSelection(Selected(paths, of), DocsOnly(paths, of))
    decreases paths
  {
  }

  /** Every classified change is coherent, whatever its paths and whatever the tests say about them. */
  lemma ClassifiedSound(paths: set<string>, tests: string -> Tests)
    ensures SoundSelection(Selected(paths, OutcomeOf(tests)), DocsOnly(paths, OutcomeOf(tests)))
  {
    forall path | path in paths
      ensures Sound(path, OutcomeOf(tests)(path))
    {
      CodeCoherent(tests(path));
      MulticastIsCode(path);
      PathSound(path, IsDocumentation(path), tests(path), CodeFlags(tests(path)));
    }
    SelectionSound(paths, OutcomeOf(tests));
  }

  /** A path that no rule knows selects every job a path can select. */
  lemma UnknownSelectsEverything(t: Tests)
    requires !t.apiContract && !t.aeadContract && !t.formatTool && !t.pythonTool && !t.mbedtlsTool
    requires !t.documentationTool && !t.packaging && !t.packageFile && !t.ffmpegTests && !t.sourceRevision
    requires !t.gstreamerTests && !t.obsTests && !t.vlcTests && !t.inInterop && !t.inSources && !t.cppSuffix
    requires (t.inBenchmarks || t.inExamples) ==> !t.pySuffix
    ensures CodeFlags(t) == Everything()
  {
  }

  /** One path that selects everything makes the whole change a full run, forced-run flag aside. */
  lemma EverythingAbsorbs(paths: set<string>, of: string -> Outcome, path: string)
    requires path in paths && of(path).flags == Everything()
    requires forall p :: p in paths ==> Sound(p, of(p))
    ensures Selected(paths, of) == Everything()
  {
  }

  // ---------------------------------------------------------------- reference profiles

  datatype Profile = Profile(name: string, flag: Flag)

  const PROFILES: seq<Profile> := [
    Profile("handshake", HANDSHAKE), Profile("encrypted", ENCRYPTED), Profile("aead", AEAD),
    Profile("aead-ipv6", AEAD), Profile("aead-file", AEAD), Profile("aead-file-ipv6", AEAD),
    Profile("aead-fec", AEAD_FEC), Profile("aead-group", AEAD_GROUP), Profile("aead-timing", AEAD_TIMING),
    Profile("file-base", FILE_BASE), Profile("file-encrypted-base", FILE_ENCRYPTED_BASE),
    Profile("file-encrypted-rendezvous", FILE_ENCRYPTED_RENDEZVOUS),
    Profile("file-encrypted-faults", FILE_ENCRYPTED_FAULTS),
    Profile("file-encrypted-rollover", FILE_ENCRYPTED_ROLLOVER), Profile("file-peer-error", FILE_PEER_ERROR),
    Profile("file-rollover", FILE_ROLLOVER), Profile("file-resilience", FILE_RESILIENCE),
    Profile("file-rendezvous", FILE_RENDEZVOUS), Profile("fec", FEC), Profile("rendezvous", RENDEZVOUS),
    Profile("scalability", BENCHMARK)]

  /** The profiles whose flag is set, in table order. */
  function Chosen(table: seq<Profile>, flags: set<Flag>): seq<Profile> {
    if table == [] then []
    else (if table[0].flag in flags then [table[0]] else []) + Chosen(table[1..], flags)
  }

  /** The scalability profile closes the table, so the fallback is the table without its last entry. */
  function ReferenceProfiles(flags: set<Flag>): seq<Profile> {
    var chosen := Chosen(PROFILES, flags);
    if INTEROP in flags && chosen == [] then PROFILES[..|PROFILES| - 1] else chosen
  }

  lemma {:induction false} ChosenExactly(table: seq<Profile>, flags: set<Flag>, profile: Profile)
    ensures profile in Chosen(table, flags) <==> profile in table && profile.flag in flags
  {
    if table != [] {
      ChosenExactly(table[1..], flags, profile);
      assert table == [table[0]] + table[1..];
    }
  }

  lemma ListedFile(flags: set<Flag>)
    requires AnyFile(flags)
    ensures Chosen(PROFILES, flags) != []
  {
    var listed := PROFILES[9..18];
    assert exists k :: 0 <= k < 9 && listed[k].flag in flags by {
      assert listed[0].flag == FILE_BASE && listed[1].flag == FILE_ENCRYPTED_BASE;
      assert listed[2].flag == FILE_ENCRYPTED_RENDEZVOUS && listed[3].flag == FILE_ENCRYPTED_FAULTS;
      assert listed[4].flag == FILE_ENCRYPTED_ROLLOVER && listed[5].flag == FILE_PEER_ERROR;
      assert listed[6].flag == FILE_ROLLOVER && listed[7].flag == FILE_RESILIENCE;
      assert listed[8].flag == FILE_RENDEZVOUS;
    }
    var k :| 0 <= k < 9 && listed[k].flag in flags;
    assert PROFILES[9 + k] == listed[k];
    ChosenExactly(PROFILES, flags, listed[k]);
  }

  lemma Listed(flags: set<Flag>, k: nat)
    requires k < |PROFILES| && PROFILES[k].flag in flags
    ensures Chosen(PROFILES, flags) != []
  {
    ChosenExactly(PROFILES, flags, PROFILES[k]);
  }

  /** On a coherent selection the fallback matrix is never reached: the profiles are exactly those of the flags set. */
  lemma FallbackUnreachable(flags: set<Flag>)
    requires Coherent(flags)
    ensures ReferenceProfiles(flags) == Chosen(PROFILES, flags)
  {
    if INTEROP in flags {
      if AnyFile(flags) {
        ListedFile(flags);
      } else {
        assert PROFILES[0].flag == HANDSHAKE && PROFILES[1].flag == ENCRYPTED && PROFILES[2].flag == AEAD;
        assert PROFILES[6].flag == AEAD_FEC && PROFILES[7].flag == AEAD_GROUP && PROFILES[8].flag == AEAD_TIMING;
        assert PROFILES[18].flag == FEC && PROFILES[19].flag == RENDEZVOUS;
        var k: nat :| k < |PROFILES| && PROFILES[k].flag in flags;
        Listed(flags, k);
      }
    }
  }

  lemma TableFlags(profile: Profile)
    requires profile in PROFILES
    ensures IsProfile(profile.flag) || profile.flag == BENCHMARK
  {
  }

  lemma ProfileShown(flags: set<Flag>, flag: Flag)
    requires flag in flags && IsProfile(flag)
    ensures AnyProfile(flags)
  {
  }

  lemma InteropShown(flags: set<Flag>)
    requires Coherent(flags) && INTEROP in flags
    ensures exists profile :: profile in Chosen(PROFILES, flags) && profile.flag != BENCHMARK
  {
    var reference := flags - {BENCHMARK};
    assert Coherent(reference);
    FallbackUnreachable(reference);
    var profile := Chosen(PROFILES, reference)[0];
    ChosenExactly(PROFILES, reference, profile);
    ChosenExactly(PROFILES, flags, profile);
  }

  lemma ShownInterop(flags: set<Flag>, profile: Profile)
    requires Coherent(flags) && profile in Chosen(PROFILES, flags) && profile.flag != BENCHMARK
    ensures INTEROP in flags
  {
    ChosenExactly(PROFILES, flags, profile);
    TableFlags(profile);
    ProfileShown(flags, profile.flag);
  }

  /** Interop is set exactly when the job matrix names a profile other than the scalability benchmark. */
  lemma MatrixMatchesInterop(flags: set<Flag>)
    requires Coherent(flags)
    ensures INTEROP in flags <==> exists profile :: profile in ReferenceProfiles(flags) && profile.flag != BENCHMARK
  {
    FallbackUnreachable(flags);
    if INTEROP in flags {
      InteropShown(flags);
    }
    if profile :| profile in ReferenceProfiles(flags) && profile.flag != BENCHMARK {
      ShownInterop(flags, profile);
    }
  }

  // ---------------------------------------------------------------- the change set, updated path by path

  /** The flags gathered path by path, before multicast is derived. */
  ghost predicate Gathered(done: set<string>, of: string -> Outcome, flags: set<Flag>, docs: bool) {
    && (forall flag: Flag :: flag in flags <==> SelectedBy(done, of, flag))
    && (docs <==> DocsOnly(done, of))
  }

  lemma GatherOne(done: set<string>, of: string -> Outcome, flags: set<Flag>, docs: bool, path: string)
    requires Gathered(done, of, flags, docs)
    ensures Gathered(done + {path}, of, flags + of(path).flags, docs && of(path).docs)
  {
  }

  /** The closing rule: C++, examples and the qualification scripts bring multicast along. */
  function WithMulticast(flags: set<Flag>, qualifies: bool): set<Flag> {
    flags + When(MULTICAST in flags || CPP in flags || EXAMPLES in flags || qualifies, {MULTICAST})
  }

  lemma GatheredAll(paths: set<string>, of: string -> Outcome, flags: set<Flag>, docs: bool)
    requires Gathered(paths, of, flags, docs)
    ensures Selected(paths, of) == WithMulticast(flags, ForMulticast(paths))
  {
  }

  /** `flag = condition or flag`: an assignment that reads the flag back. */
  datatype Join = Join(flag: Flag, condition: bool)

  /** What a path does to the change set: flags it sets outright, then assignments that read back. */
  datatype Steps = Steps(docs: bool, base: set<Flag>, joins: seq<Join>)

  function JoinedBy(joins: seq<Join>): set<Flag> {
    if joins == [] then {}
    else
      var last := joins[|joins| - 1];
      JoinedBy(joins[..|joins| - 1]) + When(last.condition, {last.flag})
  }

  /** No earlier list claims the path. */
  predicate Unlisted(t: Tests) {
    && !t.apiContract && !t.aeadContract && !t.formatTool && !t.pythonTool && !t.mbedtlsTool
    && !t.documentationTool && !t.packaging
  }

  predicate PastPackages(t: Tests) {
    Unlisted(t) && !t.packageFile && !t.fullValidation && !t.ffmpegTests && !t.sourceRevision
  }

  predicate IsApplication(t: Tests) {
    PastPackages(t) && (t.gstreamerTests || t.obsTests || t.vlcTests)
  }

  /** A file whose C++ handler runs, whether or not its root adds profiles. */
  predicate IsCpp(t: Tests) {
    && PastPackages(t) && !t.gstreamerTests && !t.obsTests && !t.vlcTests
    && if t.inInterop then t.cppSuffix
       else if t.inBenchmarks then !t.pySuffix && t.cppSuffix
       else !t.inExamples && (t.cppSuffix || t.inSources)
  }

  function ApplicationJoins(t: Tests): seq<Join> {
    if t.gstreamerTests then [Join(FORMAT, t.endsCOrH)] else [Join(PYTHON, t.endsPy), Join(FORMAT, t.endsCOrH)]
  }

  /** Package files, application tests and C++ files read a flag back; the others only set theirs. */
  function CodeSteps(t: Tests, code: set<Flag>): Steps {
    if Unlisted(t) && t.packageFile then Steps(false, PackageBase(), [Join(FORMAT, t.cppSuffix)])
    else if IsApplication(t) then
      Steps(false, ApplicationBase(t), ApplicationJoins(t))
    else if IsCpp(t) then Steps(false, code - {LIVE_TRANSMIT}, [Join(LIVE_TRANSMIT, t.production)])
    else Steps(false, code, [])
  }

  function PathSteps(documentation: bool, t: Tests, code: set<Flag>): Steps {
    if t.liveTransmit then Steps(false, LiveTransmitBase(), [Join(FORMAT, t.cppSuffix)])
    else if documentation then Steps(true, {DOCUMENTATION}, [])
    else CodeSteps(t, code)
  }

  lemma JoinedByOne(j: Join)
    ensures JoinedBy([j]) == When(j.condition, {j.flag})
  {
    assert [j][..0] == [];
  }

  lemma JoinedByTwo(j: Join, k: Join)
    ensures JoinedBy([j, k]) == When(j.condition, {j.flag}) + When(k.condition, {k.flag})
  {
    assert [j, k][..1] == [j];
    JoinedByOne(j);
  }

  lemma NotLiveHarness(t: Tests)
    ensures LIVE_TRANSMIT !in HarnessProfiles(t)
  {
  }

  lemma CppLive(t: Tests)
    ensures LIVE_TRANSMIT in CppFlags(t) <==> t.production
  {
  }

  lemma RootLive(t: Tests, cpp: set<Flag>, harness: set<Flag>)
    requires IsCpp(t) && LIVE_TRANSMIT !in harness
    ensures LIVE_TRANSMIT in RootFlags(t, cpp, harness) <==> LIVE_TRANSMIT in cpp
  {
  }

  lemma ListsPassOn(t: Tests, root: set<Flag>)
    requires IsCpp(t)
    ensures NamedFlags(t, TreeFlags(t, root)) == root
  {
  }

  /** A production file is the only C++ file that brings the live-transmit consumer along. */
  lemma LiveIffProduction(t: Tests)
    requires IsCpp(t)
    ensures LIVE_TRANSMIT in CodeFlags(t) <==> t.production
  {
    NotLiveHarness(t);
    CppLive(t);
    RootLive(t, CppFlags(t), HarnessProfiles(t));
    ListsPassOn(t, RootFlags(t, CppFlags(t), HarnessProfiles(t)));
  }

  /** What the lists and trees make of a path on the routes that read a flag back. */
  ghost predicate Routed(t: Tests, code: set<Flag>) {
    && (Unlisted(t) && t.packageFile ==> code == PackageFlags(t))
    && (IsApplication(t) ==> code == ApplicationFlags(t))
    && (IsCpp(t) ==> (LIVE_TRANSMIT in code <==> t.production))
  }

  lemma ListsRoute(t: Tests, root: set<Flag>)
    ensures var code := NamedFlags(t, TreeFlags(t, root));
      && (Unlisted(t) && t.packageFile ==> code == PackageFlags(t))
      && (IsApplication(t) ==> code == ApplicationFlags(t))
  {
  }

  lemma CodeRouted(t: Tests)
    ensures Routed(t, CodeFlags(t))
  {
    ListsRoute(t, RootFlags(t, CppFlags(t), HarnessProfiles(t)));
    if IsCpp(t) {
      LiveIffProduction(t);
    }
  }

  lemma CodeStepsSelect(t: Tests, code: set<Flag>)
    requires Routed(t, code)
    ensures CodeSteps(t, code).base + JoinedBy(CodeSteps(t, code).joins) == code
  {
    JoinedByOne(Join(FORMAT, t.cppSuffix));
    JoinedByOne(Join(FORMAT, t.endsCOrH));
    JoinedByTwo(Join(PYTHON, t.endsPy), Join(FORMAT, t.endsCOrH));
    JoinedByOne(Join(LIVE_TRANSMIT, t.production));
  }

  /** The assignments of a path select exactly its outcome. */
  lemma StepsSelect(documentation: bool, t: Tests, code: set<Flag>)
    requires Routed(t, code)
    ensures var steps := PathSteps(documentation, t, code);
      Outcome(steps.docs, steps.base + JoinedBy(steps.joins)) == PathOutcome(documentation, t, code)
  {
    CodeStepsSelect(t, code);
    JoinedByOne(Join(FORMAT, t.cppSuffix));
  }

  class ChangeSet {
    var docsOnly: bool
    var flags: set<Flag>
    ghost const of: string -> Outcome
    ghost var done: set<string>

    /** The fields describe exactly the paths classified so far, in whatever order they came. */
    ghost predicate Valid()
      reads this
    {
      Gathered(done, of, flags, docsOnly)
    }

    constructor (ghost of: string -> Outcome)
      ensures Valid() && done == {} && this.of == of
    {
      docsOnly, flags, this.of, done := true, {}, of, {};
    }

    /** Assign one flag, which may clear it. */
    method Assign(flag: Flag, value: bool)
      modifies this`flags
      ensures flags == if value then old(flags) + {flag} else old(flags) - {flag}
    {
      flags := if value then flags + {flag} else flags - {flag};
    }

    /** Assignments that read the flag back before they set it add the flag or leave it, and never clear it. */
    method ReadBack(joins: seq<Join>)
      modifies this`flags
      ensures flags == old(flags) + JoinedBy(joins)
    {
      for i := 0 to |joins|
        invariant flags == old(flags) + JoinedBy(joins[..i])
      {
        Assign(joins[i].flag, joins[i].condition || joins[i].flag in flags);
        assert joins[..i + 1][..i] == joins[..i];
      }
      assert joins[..|joins|] == joins;
    }

    /** One turn of the loop: whatever was gathered before, a path only adds flags. */
    method Include(path: string, steps: Steps)
      requires Valid() && Outcome(steps.docs, steps.base + JoinedBy(steps.joins)) == of(path)
      modifies this
      ensures Valid() && done == old(done) + {path}
    {
      GatherOne(done, of, flags, docsOnly, path);
      flags := flags + steps.base;
      ReadBack(steps.joins);
      if !steps.docs {
        docsOnly := false;
      }
      done := done + {path};
      assert flags == old(flags) + of(path).flags;
    }

    /** Derive multicast; the fields are then the classification of all the paths. */
    method Close(qualifies: bool)
      requires Valid() && (qualifies <==> ForMulticast(done))
      modifies this`flags
      ensures flags == Selected(done, of) && docsOnly == DocsOnly(done, of)
    {
      GatheredAll(done, of, flags, docsOnly);
      if MULTICAST in flags || CPP in flags || EXAMPLES in flags {
        flags := flags + {MULTICAST};
      }
      if qualifies {
        flags := flags + {MULTICAST};
      }
    }
  }

  /** Classify one path and include what it selects. */
  method ClassifyPath(change: ChangeSet, path: string, tests: string -> Tests)
    requires change.Valid() && change.of == OutcomeOf(tests)
    modifies change
    ensures change.Valid() && change.done == old(change.done) + {path}
  {
    var t := tests(path);
    CodeRouted(t);
    StepsSelect(IsDocumentation(path), t, CodeFlags(t));
    change.Include(path, PathSteps(IsDocumentation(path), t, CodeFlags(t)));
  }

  method AnyQualifies(paths: set<string>) returns (any: bool)
    ensures any <==> ForMulticast(paths)
  {
    any := exists path :: path in paths && QualifiesMulticast(path);
  }

  /** Run the loop over a set of paths, in whatever order they come. */
  method IncludeAll(change: ChangeSet, paths: set<string>, tests: string -> Tests)
    requires change.Valid() && change.done == {} && change.of == OutcomeOf(tests)
    modifies change
    ensures change.Valid() && change.done == paths
  {
    var rest := paths;
    while rest != {}
      invariant change.Valid() && change.done + rest == paths
      decreases rest
    {
      var path :| path in rest;
      ClassifyPath(change, path, tests);
      rest := rest - {path};
    }
    assert change.done == paths;
  }

  method ClassifySet(paths: set<string>, tests: string -> Tests) returns (change: ChangeSet)
    ensures fresh(change)
    ensures change.flags == Selected(paths, OutcomeOf(tests)) && change.docsOnly == DocsOnly(paths, OutcomeOf(tests))
  {
    change := new ChangeSet(OutcomeOf(tests));
    IncludeAll(change, paths, tests);
    var qualifies := AnyQualifies(paths);
    change.Close(qualifies);
  }

  // ---------------------------------------------------------------- raw path lists

  /** What a list of raw paths selects: order, duplicates, blanks and spelling of the separators do not matter. */
  ghost function FlagsOf(paths: seq<string>, tests: string -> Tests): set<Flag> {
    Selected(PathSet(paths), OutcomeOf(tests))
  }

  ghost predicate OnlyDocs(paths: seq<string>, tests: string -> Tests) {
    DocsOnly(PathSet(paths), OutcomeOf(tests))
  }

  lemma PathSetJoin(a: seq<string>, b: seq<string>)
    ensures PathSet(a + b) == PathSet(a) + PathSet(b)
  {
    forall path
      ensures path in PathSet(a + b) <==> path in PathSet(a) + PathSet(b)
    {
      if path in PathSet(a + b) {
        var raw :| raw in a + b && !Blank(raw) && Normalized(raw) == path;
        assert raw in a || raw in b;
      }
      if path in PathSet(a) {
        var raw :| raw in a && !Blank(raw) && Normalized(raw) == path;
        assert raw in a + b;
      }
      if path in PathSet(b) {
        var raw :| raw in b && !Blank(raw) && Normalized(raw) == path;
        assert raw in a + b;
      }
    }
  }

  lemma PathSetWithin(a: seq<string>, b: seq<string>)
    requires forall raw :: raw in a ==> raw in b
    ensures PathSet(a) + PathSet(b) == PathSet(b)
  {
    assert PathSet(a) <= PathSet(b);
  }

  /** Classification of raw lists is a join homomorphism. */
  lemma ListsJoin(a: seq<string>, b: seq<string>, tests: string -> Tests)
    ensures FlagsOf(a + b, tests) == FlagsOf(a, tests) + FlagsOf(b, tests)
    ensures OnlyDocs(a + b, tests) <==> OnlyDocs(a, tests) && OnlyDocs(b, tests)
  {
    PathSetJoin(a, b);
    JoinHomomorphism(PathSet(a), PathSet(b), OutcomeOf(tests));
  }

  /** Adding raw paths, in any place and order, never deselects a job. */
  lemma ListsMonotone(a: seq<string>, b: seq<string>, tests: string -> Tests)
    requires forall raw :: raw in a ==> raw in b
    ensures FlagsOf(a, tests) <= FlagsOf(b, tests)
    ensures OnlyDocs(b, tests) ==> OnlyDocs(a, tests)
  {
    PathSetWithin(a, b);
    JoinHomomorphism(PathSet(a), PathSet(b), OutcomeOf(tests));
  }

  /** Classify a change; a forced run selects every flag. */
  method Classify(paths: seq<string>, tests: string -> Tests, forceFull: bool) returns (change: ChangeSet)
    ensures forceFull ==> !change.docsOnly && forall flag: Flag :: flag in change.flags
    ensures !forceFull ==> change.flags == FlagsOf(paths, tests) && change.docsOnly == OnlyDocs(paths, tests)
    ensures !forceFull ==> SoundSelection(change.flags, change.docsOnly)
  {
    if forceFull {
      change := new ChangeSet(OutcomeOf(tests));
      change.docsOnly, change.flags := false, Everything() + {OBS_PLATFORMS};
      return;
    }
    change := ClassifySet(PathSet(paths), tests);
    ClassifiedSound(PathSet(paths), tests);
  }

  /** Classifying two changes together or apart comes to the same, and never beyond a forced run. */
  method ClassifyTogether(a: seq<string>, b: seq<string>, tests: string -> Tests)
    returns (left: set<Flag>, right: set<Flag>, both: set<Flag>, full: set<Flag>, docs: (bool, bool, bool))
    ensures both == left + right <= full && docs.2 == (docs.0 && docs.1)
    ensures left == FlagsOf(a, tests) && right == FlagsOf(b, tests)
    ensures docs.0 == OnlyDocs(a, tests) && docs.1 == OnlyDocs(b, tests)
  {
    var first := Classify(a, tests, false);
    var second := Classify(b, tests, false);
    var joined := Classify(a + b, tests, false);
    var forced := Classify(a + b, tests, true);
    ListsJoin(a, b, tests);
    left, right, both, full := first.flags, second.flags, joined.flags, forced.flags;
    docs := (first.docsOnly, second.docsOnly, joined.docsOnly);
  }
}
