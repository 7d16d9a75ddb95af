// Per-test configuration of the conversation test runner.
module TestConfig {

  /** `tolerance` is stored and never computed with, so it stays an opaque real. */
  datatype MatchStrategy = MatchStrategy(tolerance: real, useLlm: bool)

  datatype SingleTestConfig = SingleTestConfig(matchStrategy: MatchStrategy)

  datatype SpecificTestConfig = SpecificTestConfig(name: string, matchStrategy: MatchStrategy)

  datatype TestConfigurationModel = TestConfigurationModel(default: SingleTestConfig, tests: seq<SpecificTestConfig>)

  const DefaultMatchStrategy := MatchStrategy(0.0, false)

  predicate NameMatches(t: SpecificTestConfig, name: string)
  {
    t.name == name || t.name == name + ".yaml"
  }

  /** `configuration_for_test`, scanning the entries from `from`. */
  function ConfigurationFrom(m: TestConfigurationModel, name: string, from: nat): (r: SingleTestConfig)
    decreases |m.tests| - from
    ensures forall i :: from <= i < |m.tests| && NameMatches(m.tests[i], name)
                        && (forall j :: from <= j < i ==> !NameMatches(m.tests[j], name))
                        ==> r == SingleTestConfig(m.tests[i].matchStrategy)
    ensures (forall i :: from <= i < |m.tests| ==> !NameMatches(m.tests[i], name)) ==> r == m.default
  {
    if from >= |m.tests| then m.default
    else if NameMatches(m.tests[from], name) then SingleTestConfig(m.tests[from].matchStrategy)
    else ConfigurationFrom(m, name, from + 1)
  }

  /** The earliest entry named `name` or `name.yaml` decides; otherwise the default applies. */
  function ConfigurationForTest(m: TestConfigurationModel, name: string): (r: SingleTestConfig)
    ensures forall i :: 0 <= i < |m.tests| && NameMatches(m.tests[i], name)
                        && (forall j :: 0 <= j < i ==> !NameMatches(m.tests[j], name))
                        ==> r == SingleTestConfig(m.tests[i].matchStrategy)
    ensures (forall i :: 0 <= i < |m.tests| ==> !NameMatches(m.tests[i], name)) ==> r == m.default
  {
    ConfigurationFrom(m, name, 0)
  }

  function DefaultTestConfiguration(): (m: TestConfigurationModel)
    ensures m.tests == [] && m.default.matchStrategy == DefaultMatchStrategy
  {
    TestConfigurationModel(SingleTestConfig(DefaultMatchStrategy), [])
  }
}
