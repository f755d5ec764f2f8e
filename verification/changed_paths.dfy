/** The paginated diffstat query of bitbucket_hook_diffstat/main.py
    (get_changed_paths): request the first page for a commit range, follow
    each page's `next` link, union the paths of every page, and stop at the
    first page without `next` or at the first response whose status is not
    200.

    The HTTP connection is replaced by the responses it hands back, in the
    order the requests are made: the k-th request receives `server[k]`
    whatever its URL, and the URLs requested are returned as a ghost trace. */
module ChangedPaths {
  import opened DiffstatPage

  /** What the connection returns for one GET: its status, its reason phrase
      and, for a 200 response, the parsed JSON body. */
  datatype Response = Response(status: int, reason: string, body: Page)

  /** The error returned beside the partial path set when a response is not
      200; it records what the source's message interpolates about the
      failed request (status, reason and the URL requested). */
  datatype FetchError = UnexpectedStatus(status: int, reason: string, url: string)

  const Ok: int := 200

  /** The path of the diffstat endpoint up to the commit range. */
  function DiffstatPrefix(owner: string, repo: string): string
  {
    "/2.0/repositories/" + owner + "/" + repo + "/diffstat/"
  }

  /** The first URL requested: the destination commit comes first, then
      `..`, then the source commit. */
  function InitialUrl(owner: string, repo: string, fromCommit: string, toCommit: string): (u: string)
    ensures var n := |DiffstatPrefix(owner, repo)|;
            |u| == n + |toCommit| + 2 + |fromCommit| &&
            u[..n] == DiffstatPrefix(owner, repo) &&
            u[n..n + |toCommit|] == toCommit &&
            u[n + |toCommit|..n + |toCommit| + 2] == ".." &&
            u[n + |toCommit| + 2..] == fromCommit
  {
    DiffstatPrefix(owner, repo) + toCommit + ".." + fromCommit
  }

  /** A response ends the loop: it is an error, or a page without `next`. */
  predicate Stops(r: Response)
  {
    r.status != Ok || r.body.next.None?
  }

  /** The provider's page chain is finite: some response ends the loop. */
  predicate Terminates(server: seq<Response>)
  {
    exists k :: 0 <= k < |server| && Stops(server[k])
  }

  /** The index of the last request the loop makes: the first response that
      ends it. */
  function FirstStop(server: seq<Response>): (n: nat)
    requires Terminates(server)
    ensures n < |server| && Stops(server[n])
    ensures forall k :: 0 <= k < n ==> !Stops(server[k])
    decreases |server|
  {
    if Stops(server[0]) then 0
    else
      assert Terminates(server[1..]) by {
        var k :| 0 <= k < |server| && Stops(server[k]);
        assert k != 0 && server[1..][k - 1] == server[k];
      }
      1 + FirstStop(server[1..])
  }

  /** The union of the page paths of the given responses, folded in request
      order. */
  function FetchedPaths(pages: seq<Response>): set<string>
  {
    if pages == [] then {}
    else FetchedPaths(pages[..|pages| - 1]) + PagePaths(pages[|pages| - 1].body.values)
  }

  /** A path was fetched exactly when some page's `values` contributes it. */
  lemma {:induction false} FetchedPathsMembership(pages: seq<Response>, p: string)
    ensures p in FetchedPaths(pages) <==>
            exists k :: 0 <= k < |pages| && p in PagePaths(pages[k].body.values)
  {
    if pages != [] {
      var init := pages[..|pages| - 1];
      FetchedPathsMembership(init, p);
      if p in FetchedPaths(pages) && p !in PagePaths(pages[|pages| - 1].body.values) {
        var k :| 0 <= k < |init| && p in PagePaths(init[k].body.values);
        assert pages[k] == init[k];
      }
      if exists k :: 0 <= k < |pages| && p in PagePaths(pages[k].body.values) {
        var k :| 0 <= k < |pages| && p in PagePaths(pages[k].body.values);
        if k < |pages| - 1 {
          assert init[k] == pages[k];
        }
      }
    }
  }

  /** The accumulator only grows: the paths of the first `j` pages are among
      the paths of the first `k` pages whenever `j <= k`. */
  lemma {:induction false} FetchedPathsGrow(pages: seq<Response>, j: nat, k: nat)
    requires j <= k <= |pages|
    ensures FetchedPaths(pages[..j]) <= FetchedPaths(pages[..k])
  {
    if j < k {
      FetchedPathsGrow(pages, j, k - 1);
      assert pages[..k][..k - 1] == pages[..k - 1];
    }
  }

  /** Fetching one more page adds that page's paths to the accumulator.
      A proof step of GetChangedPaths, kept apart to keep that proof cheap. */
  lemma FetchedPathsStep(pages: seq<Response>, k: nat)
    requires k < |pages|
    ensures FetchedPaths(pages[..k + 1]) == FetchedPaths(pages[..k]) + PagePaths(pages[k].body.values)
  {
    assert pages[..k + 1][..k] == pages[..k];
  }

  /** Requesting the `next` link of page `k` extends a trace that follows
      the links of the pages before it. It exists only to keep the proof of
      GetChangedPaths cheap. */
  lemma TraceStep(server: seq<Response>, requested: seq<string>, k: nat)
    requires k < |server| && |requested| == k + 1
    requires forall j :: 0 <= j <= k ==> server[j].body.next.Some?
    requires forall j :: 0 <= j < k ==> requested[j + 1] == server[j].body.next.value
    ensures forall j :: 0 <= j < k + 1 ==>
              (requested + [server[k].body.next.value])[j + 1] == server[j].body.next.value
  {
  }

  /** get_changed_paths. `server` stands for the connection and the page
      chain behind it; `requested` is the trace of URLs sent to it. */
  method GetChangedPaths(server: seq<Response>, owner: string, repo: string,
                         fromCommit: string, toCommit: string)
    returns (paths: set<string>, error: Option<FetchError>, ghost requested: seq<string>)
    requires Terminates(server)
    ensures var n := FirstStop(server);
            |requested| == n + 1 &&
            requested[0] == InitialUrl(owner, repo, fromCommit, toCommit) &&
            (forall k :: 0 <= k < n ==> requested[k + 1] == server[k].body.next.value)
    ensures var n := FirstStop(server);
            (error.None? <==> server[n].status == Ok) &&
            (error.Some? ==>
              error.value == UnexpectedStatus(server[n].status, server[n].reason, requested[n]))
    ensures var n := FirstStop(server);
            server[n].status == Ok ==> paths == FetchedPaths(server[..n + 1])
    ensures var n := FirstStop(server);
            server[n].status != Ok ==> paths == FetchedPaths(server[..n])
  {
    ghost var n := FirstStop(server);
    error := None;
    paths := {};
    var url := InitialUrl(owner, repo, fromCommit, toCommit);
    requested := [url];
    var k := 0;
    while true
      invariant k <= n && |requested| == k + 1 && requested[k] == url
      invariant requested[0] == InitialUrl(owner, repo, fromCommit, toCommit)
      invariant forall j :: 0 <= j < k ==> requested[j + 1] == server[j].body.next.value
      invariant paths == FetchedPaths(server[..k])
      invariant error.None?
      decreases n - k
    {
      var response := server[k];
      if response.status != Ok {
        assert k == n;
        error := Some(UnexpectedStatus(response.status, response.reason, url));
        return;
      }
      var pagePaths := ExtractChangedPaths(response.body);
      FetchedPathsStep(server, k);
      paths := paths + pagePaths;
      if response.body.next.None? {
        assert k == n;
        break;
      }
      assert k < n;
      url := response.body.next.value;
      TraceStep(server, requested, k);
      requested := requested + [url];
      k := k + 1;
    }
  }
}

/** Clients of the contracts above: two pages, the first with a renamed
    file and a `next` link, the second with an added file; and the same chain
    whose second response is an error. */
module ChangedPathsScenario {
  import opened DiffstatPage
  import opened ChangedPaths

  const Rename := Record(Present(FileRef("a")), Present(FileRef("b")))
  const Added := Record(Null, Present(FileRef("c")))
  const First := Response(200, "OK", Page([Rename], Some("P2")))

  method TwoPages()
  {
    var second := Response(200, "OK", Page([Added], None));
    var server := [First, second];
    assert !Stops(server[0]) && Stops(server[1]);
    assert server[1..] == [second] && FirstStop(server) == 1;
    assert PagePaths([Rename]) == {"a", "b"} by { assert [Rename][..0] == []; }
    assert PagePaths([Added]) == {"c"} by { assert [Added][..0] == []; }
    assert FetchedPaths([First]) == {"a", "b"} by { assert [First][..0] == []; }
    assert server[..2] == server && server[..2][..1] == [First];
    var paths, error, requested := GetChangedPaths(server, "o", "r", "c1", "c2");
    assert requested[1] == "P2";
    assert paths == {"a", "b", "c"};
    assert error == None;
  }

  method FailingSecondPage()
  {
    var failing := Response(503, "Service Unavailable", Page([Added], None));
    var server := [First, failing];
    assert !Stops(server[0]) && Stops(server[1]);
    assert server[1..] == [failing] && FirstStop(server) == 1;
    assert PagePaths([Rename]) == {"a", "b"} by { assert [Rename][..0] == []; }
    assert FetchedPaths([First]) == {"a", "b"} by { assert [First][..0] == []; }
    assert server[..1] == [First];
    var paths, error, requested := GetChangedPaths(server, "o", "r", "c1", "c2");
    assert paths == {"a", "b"};
    assert error == Some(UnexpectedStatus(503, "Service Unavailable", "P2"));
  }

  method InitialUrlOrder()
  {
    var u := InitialUrl("o", "r", "c1", "c2");
    assert u == "/2.0/repositories/o/r/diffstat/c2..c1";
  }
}
