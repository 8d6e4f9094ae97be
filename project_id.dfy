/**
 * The database package's helper script that prints a Supabase project id: the first
 * label of a `PROJECT_ID.supabase.co` hostname. URL parsing is the platform's `URL`
 * constructor, an input here.
 */
module ProjectId {
  import opened Wrappers

  const HostSuffix: string := ".supabase.co"

  const NoUrlMessage: string := "Please provide a Supabase URL"
  const UsageMessage: string := "Usage: node scripts/get-project-id.js <supabase-url>"
  const NoMatchMessage: string := "Could not extract project ID from URL:"
  const ExpectedMessage: string := "Expected format: https://PROJECT_ID.supabase.co"
  const InvalidMessage: string := "Invalid URL:"

  /** A project id as the pattern `[^.]+` admits it: non-empty, without a dot. */
  predicate IsLabel(id: string) {
    id != [] && '.' !in id
  }

  /**
   * `hostname.match(/^([^.]+)\.supabase\.co$/)` and its first group: the match succeeds only
   * on a hostname that is a label followed by `.supabase.co` and nothing more, and the group
   * is that label, so printing it and appending the suffix gives the hostname back.
   */
  function MatchProjectId(host: string): (r: Option<string>)
    ensures r.Some? ==> IsLabel(r.value) && r.value + HostSuffix == host
  {
    if |host| > |HostSuffix| then
      var n := |host| - |HostSuffix|;
      if host[n..] == HostSuffix && '.' !in host[..n] then
        assert host[..n] + host[n..] == host;
        Some(host[..n])
      else None
    else None
  }

  /** Every label followed by the suffix matches, with the label as the group. */
  lemma MatchComplete(id: string)
    requires IsLabel(id)
    ensures MatchProjectId(id + HostSuffix) == Some(id)
  {
    var host := id + HostSuffix;
    var n := |host| - |HostSuffix|;
    assert host[n..] == HostSuffix && host[..n] == id;
  }

  /** Two labels, a bare suffix and a look-alike domain are all rejected. */
  lemma RejectedHosts()
    ensures MatchProjectId("a.b.supabase.co") == None
    ensures MatchProjectId("supabase.co") == None
    ensures MatchProjectId(".supabase.co") == None
    ensures MatchProjectId("x.supabase.com") == None
    ensures MatchProjectId("abcdefghijklmnop.supabase.co") == Some("abcdefghijklmnop")
  {
    var h := "a.b.supabase.co";
    assert h[..3][1] == '.';
    assert "x.supabase.com"[2..] != HostSuffix by { assert "x.supabase.com"[2..][11] == 'm'; }
    assert "abcdefghijklmnop" + HostSuffix == "abcdefghijklmnop.supabase.co";
    MatchComplete("abcdefghijklmnop");
  }

  /** What `new URL(url)` gives: the hostname, or the message of the error it throws. */
  datatype UrlParse = Parsed(hostname: string) | Invalid(message: string)

  /** The lines written to standard output and standard error, and the exit code. */
  datatype ScriptResult = ScriptResult(stdout: seq<string>, stderr: seq<string>, exitCode: nat)

  /**
   * The script on its first argument (absent or empty: usage and exit 1). It exits 0,
   * printing only the project id, exactly when the argument parses as a URL whose hostname
   * matches; an unparseable URL and a hostname that does not match both exit 1 with a
   * message on standard error and nothing on standard output.
   */
  function GetProjectId(arg: Option<string>, parseUrl: string -> UrlParse): (r: ScriptResult)
    ensures r.exitCode == 0 || r.exitCode == 1
    ensures !Truthy(arg) ==> r == ScriptResult([], [NoUrlMessage, UsageMessage], 1)
    ensures r.exitCode == 0 <==>
      Truthy(arg) && parseUrl(arg.value).Parsed? && MatchProjectId(parseUrl(arg.value).hostname).Some?
    ensures r.exitCode == 0 ==>
      && r.stderr == [] && |r.stdout| == 1
      && IsLabel(r.stdout[0]) && r.stdout[0] + HostSuffix == parseUrl(arg.value).hostname
    ensures r.exitCode == 1 ==> r.stdout == [] && |r.stderr| >= 1
    ensures Truthy(arg) && parseUrl(arg.value).Invalid? ==>
      r.stderr == [InvalidMessage + " " + parseUrl(arg.value).message]
    ensures Truthy(arg) && parseUrl(arg.value).Parsed? && MatchProjectId(parseUrl(arg.value).hostname).None? ==>
      r.stderr == [NoMatchMessage + " " + arg.value, ExpectedMessage]
  {
    if !Truthy(arg) then ScriptResult([], [NoUrlMessage, UsageMessage], 1)
    else
      var url := arg.value;
      match parseUrl(url)
      case Invalid(message) => ScriptResult([], [InvalidMessage + " " + message], 1)
      case Parsed(hostname) =>
        match MatchProjectId(hostname)
        case Some(id) => ScriptResult([id], [], 0)
        case None => ScriptResult([], [NoMatchMessage + " " + url, ExpectedMessage], 1)
  }
}
