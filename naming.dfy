/** The name UsingTestBranch derives for a test's branch: the host name and
    the test's name joined with ".", with every "/" (Go's subtest separator)
    turned into ".". */
module Naming {

  function Dot(c: char): char {
    if c == '/' then '.' else c
  }

  /** `strings.ReplaceAll(s, "/", ".")`. */
  function ReplaceSlashes(s: string): (r: string)
    ensures |r| == |s|
    ensures forall i :: 0 <= i < |s| ==> r[i] == Dot(s[i])
    ensures '/' !in r
  {
    if s == [] then [] else [Dot(s[0])] + ReplaceSlashes(s[1..])
  }

  /** `strings.ReplaceAll(fmt.Sprintf("%s.%s", hostname, t.Name()), "/", ".")`. */
  function TestBranchName(hostname: string, testName: string): (r: string)
    ensures |r| == |hostname| + 1 + |testName|
    ensures '/' !in r
    ensures r[|hostname|] == '.'
  {
    ReplaceSlashes(hostname + "." + testName)
  }

  lemma {:induction false} ReplaceSlashesConcat(a: string, b: string)
    ensures ReplaceSlashes(a + b) == ReplaceSlashes(a) + ReplaceSlashes(b)
  {
    if a == [] {
      assert a + b == b;
    } else {
      assert (a + b)[1..] == a[1..] + b;
      ReplaceSlashesConcat(a[1..], b);
    }
  }

  lemma {:induction false} ReplaceSlashesKeeps(s: string)
    requires '/' !in s
    ensures ReplaceSlashes(s) == s
  {
    if s != [] {
      assert '/' !in s[1..];
      ReplaceSlashesKeeps(s[1..]);
    }
  }

  /** The derived name is the host with its slashes turned into dots, a dot,
      and the test name likewise: changing one part never changes the other. */
  lemma TestBranchNameParts(hostname: string, testName: string)
    ensures TestBranchName(hostname, testName) == ReplaceSlashes(hostname) + "." + ReplaceSlashes(testName)
  {
    ReplaceSlashesConcat(hostname + ".", testName);
    ReplaceSlashesConcat(hostname, ".");
  }

  /** A test on host "h1". */
  lemma TestBranchNameOfTest()
    ensures TestBranchName("h1", "TestFoo") == "h1.TestFoo"
  {
    TestBranchNameParts("h1", "TestFoo");
    ReplaceSlashesKeeps("h1");
    ReplaceSlashesKeeps("TestFoo");
  }

  /** A subtest on host "h1": the subtest separator becomes a dot. */
  lemma TestBranchNameOfSubtest()
    ensures TestBranchName("h1", "TestFoo/case1") == "h1.TestFoo.case1"
  {
    var joined := "h1" + "." + "TestFoo/case1";
    var want := "h1.TestFoo.case1";
    assert joined == "h1.TestFoo/case1";
    forall i | 0 <= i < |joined| ensures want[i] == Dot(joined[i]) {
      if i == 10 {
        assert joined[i] == '/';
      } else {
        assert joined[i] == want[i] && want[i] != '/';
      }
    }
    SameAsDotted(joined, want);
  }

  /** The derivation is not one-to-one: a test name and the same name with
      its slashes already turned into dots get the same branch.  So the
      subtests `TestFoo/a.b` and `TestFoo/a/b` share one branch. */
  lemma TestBranchNameCollides(hostname: string, testName: string)
    requires '/' in testName
    ensures ReplaceSlashes(testName) != testName
    ensures TestBranchName(hostname, ReplaceSlashes(testName)) == TestBranchName(hostname, testName)
  {
    TestBranchNameParts(hostname, testName);
    TestBranchNameParts(hostname, ReplaceSlashes(testName));
    ReplaceSlashesKeeps(ReplaceSlashes(testName));
  }

  /** Two distinct subtests of TestFoo on host "h1" get the same branch name. */
  lemma SubtestsCollide()
    ensures "TestFoo/a.b" != "TestFoo/a/b"
    ensures TestBranchName("h1", "TestFoo/a.b") == TestBranchName("h1", "TestFoo/a/b")
  {
    var dotted, slashed := "TestFoo/a.b", "TestFoo/a/b";
    assert dotted[9] != slashed[9];
    assert dotted == "TestFoo" + "/" + "a.b";
    assert slashed == "TestFoo" + "/" + ("a" + "/" + "b");
    OneSlash("TestFoo", "a.b");
    OneSlash("TestFoo", "a/b");
    OneSlash("a", "b");
    ReplaceSlashesKeeps("a.b");
    ReplaceSlashesKeeps("b");
    TestBranchNameParts("h1", dotted);
    TestBranchNameParts("h1", slashed);
  }

  lemma OneSlash(a: string, b: string)
    requires '/' !in a
    ensures ReplaceSlashes(a + "/" + b) == a + "." + ReplaceSlashes(b)
  {
    ReplaceSlashesConcat(a + "/", b);
    ReplaceSlashesConcat(a, "/");
    ReplaceSlashesKeeps(a);
  }

  lemma SameAsDotted(s: string, t: string)
    requires |t| == |s|
    requires forall i :: 0 <= i < |s| ==> t[i] == Dot(s[i])
    ensures ReplaceSlashes(s) == t
  {
  }
}
