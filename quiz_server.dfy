/** The toy leaderboard server: one shared array of `{ username, score }`, appended to by
    `POST /quiz` and sorted in place by `GET /leaderboard`. */
module QuizServer {

  datatype Entry = Entry(username: string, score: int)

  const GOLD := "Gold Token"
  const SILVER := "Silver Token"
  const STUDY_MORE := "Daha çok çalış!"

  /** The reward tier of a score: the three tiers are disjoint and cover every score. */
  function Reward(score: int): (r: string)
    ensures r == GOLD <==> score >= 80
    ensures r == SILVER <==> 50 <= score < 80
    ensures r == STUDY_MORE <==> score < 50
  {
    if score >= 80 then GOLD
    else if score >= 50 then SILVER
    else STUDY_MORE
  }

  // ---------------------------------------------------------------------------
  // The order `leaderboard.sort((a, b) => b.score - a.score)` leaves: non-increasing
  // score, entries with equal scores in their previous relative order (sort is stable).

  predicate SortedByScore(s: seq<Entry>)
  {
    forall i, j :: 0 <= i < j < |s| ==> s[i].score >= s[j].score
  }

  /** Puts `e` after every entry with a higher score and before the rest. */
  function Insert(e: Entry, s: seq<Entry>): seq<Entry>
  {
    if s == [] || s[0].score <= e.score then [e] + s
    else [s[0]] + Insert(e, s[1..])
  }

  function SortByScore(s: seq<Entry>): seq<Entry>
  {
    if s == [] then [] else Insert(s[0], SortByScore(s[1..]))
  }

  lemma {:induction false} InsertKeepsEntries(e: Entry, s: seq<Entry>)
    ensures multiset(Insert(e, s)) == multiset(s) + multiset{e}
  {
    if s != [] && s[0].score > e.score {
      InsertKeepsEntries(e, s[1..]);
      assert s == [s[0]] + s[1..];
    }
  }

  lemma {:induction false} InsertKeepsOrder(e: Entry, s: seq<Entry>)
    requires SortedByScore(s)
    ensures SortedByScore(Insert(e, s))
    ensures |Insert(e, s)| == |s| + 1
    ensures Insert(e, s)[0] == e || (s != [] && Insert(e, s)[0] == s[0])
  {
    if s != [] && s[0].score > e.score {
      InsertKeepsOrder(e, s[1..]);
      var t := Insert(e, s[1..]);
      assert t[0].score <= s[0].score;
      forall j | 0 < j < |t| + 1 ensures ([s[0]] + t)[j].score <= s[0].score {
        assert ([s[0]] + t)[j] == t[j - 1];
        assert t[0].score <= s[0].score;
        if j > 1 { assert t[0].score >= t[j - 1].score; }
      }
    }
  }

  /** The sort gives a non-increasing order and is a permutation of what it was given. */
  lemma {:induction false} SortByScoreCorrect(s: seq<Entry>)
    ensures SortedByScore(SortByScore(s))
    ensures multiset(SortByScore(s)) == multiset(s)
  {
    if s != [] {
      SortByScoreCorrect(s[1..]);
      InsertKeepsOrder(s[0], SortByScore(s[1..]));
      InsertKeepsEntries(s[0], SortByScore(s[1..]));
      assert s == [s[0]] + s[1..];
    }
  }

  /** The entries with one given score, in order. */
  function WithScore(s: seq<Entry>, k: int): seq<Entry>
  {
    if s == [] then []
    else (if s[0].score == k then [s[0]] else []) + WithScore(s[1..], k)
  }

  lemma {:induction false} InsertWithScore(e: Entry, s: seq<Entry>, k: int)
    ensures WithScore(Insert(e, s), k) == (if e.score == k then [e] else []) + WithScore(s, k)
  {
    var r := Insert(e, s);
    if s == [] || s[0].score <= e.score {
      assert r == [e] + s && r[0] == e && r[1..] == s;
      assert WithScore(r, k) == (if e.score == k then [e] else []) + WithScore(s, k);
    } else {
      InsertWithScore(e, s[1..], k);
      assert r == [s[0]] + Insert(e, s[1..]) && r[0] == s[0] && r[1..] == Insert(e, s[1..]);
      assert WithScore(r, k) == (if s[0].score == k then [s[0]] else []) + WithScore(Insert(e, s[1..]), k);
      assert WithScore(s, k) == (if s[0].score == k then [s[0]] else []) + WithScore(s[1..], k);
    }
  }

  /** The sort is stable: entries with equal scores keep their relative order. */
  lemma {:induction false} SortByScoreStable(s: seq<Entry>, k: int)
    ensures WithScore(SortByScore(s), k) == WithScore(s, k)
  {
    if s != [] {
      SortByScoreStable(s[1..], k);
      InsertWithScore(s[0], SortByScore(s[1..]), k);
    }
  }

  /** Sorting an array that is already in order leaves it as it is, so a second
      `GET /leaderboard` with no `POST` between answers the same array. */
  lemma {:induction false} SortSortedIsIdentity(s: seq<Entry>)
    requires SortedByScore(s)
    ensures SortByScore(s) == s
  {
    if s != [] {
      SortSortedIsIdentity(s[1..]);
      assert s == [s[0]] + s[1..];
    }
  }

  // ---------------------------------------------------------------------------
  // The request handler

  datatype Request = Request(httpMethod: string, url: string, submission: Entry)

  datatype Reply =
    | QuizReply(reward: string, leaderboard: seq<Entry>)   // 200, { reward, leaderboard }
    | BoardReply(leaderboard: seq<Entry>)                  // 200, the array
    | NotFound                                             // 404, "Not Found"

  class Leaderboard {
    var entries: seq<Entry>

    constructor ()
      ensures entries == []
    {
      entries := [];
    }

    method Handle(req: Request) returns (reply: Reply)
      modifies this
      // POST /quiz appends one entry at the end and answers with its tier and the whole array
      ensures req.httpMethod == "POST" && req.url == "/quiz" ==>
        entries == old(entries) + [req.submission]
        && reply == QuizReply(Reward(req.submission.score), entries)
      // GET /leaderboard sorts the shared array in place; the order stays for later requests
      ensures req.httpMethod == "GET" && req.url == "/leaderboard" ==>
        entries == SortByScore(old(entries)) && reply == BoardReply(entries)
        && SortedByScore(entries) && multiset(entries) == multiset(old(entries))
      ensures !(req.httpMethod == "POST" && req.url == "/quiz") && !(req.httpMethod == "GET" && req.url == "/leaderboard") ==>
        entries == old(entries) && reply == NotFound
    {
      if req.httpMethod == "POST" && req.url == "/quiz" {
        entries := entries + [req.submission];
        var reward := Reward(req.submission.score);
        reply := QuizReply(reward, entries);
      } else if req.httpMethod == "GET" && req.url == "/leaderboard" {
        SortByScoreCorrect(entries);
        entries := SortByScore(entries);
        reply := BoardReply(entries);
      } else {
        reply := NotFound;
      }
    }
  }
}
