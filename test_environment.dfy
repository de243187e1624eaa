/** tests/testEnvironment.py: where the tests expect to reach a broker, and
    the per-process topic they log on. The host name and process id that
    `platform.node()` and `os.getpid()` return are parameters. */
module TestEnvironments {
  import opened Common

  datatype TestEnvironment = TestEnvironment(
    broker: string, port: int, loggingTopic: string, testDomains: seq<string>, testHosts: seq<string>)

  /** `TestEnvironment()`. The logging topic comes from
      `LogEvent().getLoggingTopic()`, which is not part of this model. */
  function Initial(loggingTopic: string): (env: TestEnvironment)
    ensures env.broker == "lsst8.ncsa.illinois.edu" && env.port == 61616
    ensures env.loggingTopic == loggingTopic
    ensures env.testDomains == ["ncsa.illinois.edu"] && env.testHosts == []
  {
    TestEnvironment("lsst8.ncsa.illinois.edu", 61616, loggingTopic, ["ncsa.illinois.edu"], [])
  }

  /** `host.find('.')`. */
  function FirstDot(host: string): (r: Option<nat>)
    ensures r.None? <==> forall k :: 0 <= k < |host| ==> host[k] != '.'
    ensures r.Some? ==> r.value < |host| && host[r.value] == '.' &&
                        forall k :: 0 <= k < r.value ==> host[k] != '.'
  {
    if host == [] then None
    else if host[0] == '.' then Some(0)
    else match FirstDot(host[1..])
      case None => None
      case Some(k) => Some(k + 1)
  }

  /** `validTestDomain`: a listed host is accepted; any other is accepted
      when what follows its first '.' is a listed domain. */
  function ValidTestDomain(env: TestEnvironment, host: Option<string>): (b: bool)
    ensures host.None? ==> !b
    ensures host.Some? && host.value in env.testHosts ==> b
    ensures host.Some? && host.value !in env.testHosts ==>
              (b <==> exists k :: 0 <= k < |host.value| && host.value[k] == '.' &&
                                  (forall j :: 0 <= j < k ==> host.value[j] != '.') &&
                                  host.value[k + 1..] in env.testDomains)
  {
    match host
    case None => false
    case Some(h) =>
      if h in env.testHosts then true
      else match FirstDot(h)
        case None => false
        case Some(k) => h[k + 1..] in env.testDomains
  }

  /** `getLoggingTopic`: `"%s_%s_%d" % (logging_topic, host, pid)`. */
  function LoggingTopic(env: TestEnvironment, host: string, pid: int): (topic: string)
    ensures |topic| == |env.loggingTopic| + |host| + |Decimal(pid)| + 2
    ensures topic[..|env.loggingTopic| + 1] == env.loggingTopic + "_"
  {
    env.loggingTopic + "_" + host + "_" + Decimal(pid)
  }

  /** The topic begins with the logging topic and ends in the process id,
      which is what follows its last '_' and reads back as the id. */
  lemma LoggingTopicParts(env: TestEnvironment, host: string, pid: int)
    ensures var t := LoggingTopic(env, host, pid);
            var d := Decimal(pid);
            && t[..|env.loggingTopic| + 1] == env.loggingTopic + "_"
            && |t| > |d| && t[|t| - |d| - 1] == '_' && t[|t| - |d|..] == d
            && (forall k :: |t| - |d| <= k < |t| ==> t[k] != '_')
            && ScanInteger(t[|t| - |d|..]) == Some(pid)
  {
    var t := LoggingTopic(env, host, pid);
    var d := Decimal(pid);
    assert t == (env.loggingTopic + "_" + host + "_") + d;
    DecimalHasNoChar(pid, '_');
    ScanDecimal(pid);
  }

  /** With the initial lists, the tests run exactly on hosts directly
      under ncsa.illinois.edu's name, such as `lsst8.ncsa.illinois.edu`. */
  lemma InitialDomain(loggingTopic: string, name: string)
    requires forall k :: 0 <= k < |name| ==> name[k] != '.'
    ensures ValidTestDomain(Initial(loggingTopic), Some(name + ".ncsa.illinois.edu"))
    ensures !ValidTestDomain(Initial(loggingTopic), Some(name))
  {
    var h := name + ".ncsa.illinois.edu";
    assert h[|name|] == '.' && h[|name| + 1..] == "ncsa.illinois.edu";
  }
}
