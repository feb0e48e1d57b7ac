/**
 * The email allow-list test both plugins run before notifying: the nested
 * suffix loop and the allow-list loop of `filter_by_email`
 * (plugins/gerritbot/gerritbot.py) and `ok_by_email`
 * (plugins/osgerrit/osgerrit.py), which are the same code over a list of
 * candidate emails. Calling `endswith` on a candidate that is not a string
 * raises `AttributeError`; the loops never stop early, so that happens
 * whenever a suffix other than "*" meets such a candidate.
 */
module EmailFilter {
  import opened Text
  import opened Values

  /** Some configured suffix is not "*", so the inner loop runs. */
  predicate HasPlainSuffix(suffixes: seq<string>) {
    exists j :: 0 <= j < |suffixes| && suffixes[j] != "*"
  }

  predicate AllText(candidates: seq<Json>) {
    forall i :: 0 <= i < |candidates| ==> candidates[i].JStr?
  }

  /** Some candidate ends with some suffix other than "*". */
  predicate SuffixMatch(candidates: seq<Json>, suffixes: seq<string>) {
    exists i, j :: 0 <= i < |candidates| && 0 <= j < |suffixes| && suffixes[j] != "*"
                   && candidates[i].JStr? && EndsWith(candidates[i].s, suffixes[j])
  }

  /** Some candidate is one of the allow-listed emails. */
  predicate Listed(candidates: seq<Json>, emails: seq<string>) {
    exists i :: 0 <= i < |candidates| && candidates[i].JStr? && candidates[i].s in emails
  }

  /**
   * What the loops decide: raise when `endswith` meets a non-string, else
   * pass iff the suffix list is empty, holds "*", some candidate ends with a
   * suffix, or some candidate is allow-listed.
   */
  function Decision(candidates: seq<Json>, suffixes: seq<string>, emails: seq<string>): Result<bool> {
    if HasPlainSuffix(suffixes) && !AllText(candidates) then Err(AttributeError)
    else Ok(|suffixes| == 0 || "*" in suffixes || SuffixMatch(candidates, suffixes) || Listed(candidates, emails))
  }

  /** The `send_message` loops, as written in both plugins. */
  method Scan(candidates: seq<Json>, suffixes: seq<string>, emails: seq<string>) returns (r: Result<bool>)
    ensures r == Decision(candidates, suffixes, emails)
  {
    var sendMessage := false;
    if |suffixes| == 0 {
      sendMessage := true;
    } else {
      var j := 0;
      while j < |suffixes|
        invariant 0 <= j <= |suffixes|
        invariant HasPlainSuffix(suffixes[..j]) ==> AllText(candidates)
        invariant sendMessage <==> "*" in suffixes[..j] || SuffixMatch(candidates, suffixes[..j])
      {
        if suffixes[j] == "*" {
          sendMessage := true;
        } else {
          var i := 0;
          while i < |candidates|
            invariant 0 <= i <= |candidates|
            invariant forall k :: 0 <= k < i ==> candidates[k].JStr?
            invariant sendMessage <==>
              || "*" in suffixes[..j] || SuffixMatch(candidates, suffixes[..j])
              || exists k :: 0 <= k < i && candidates[k].JStr? && EndsWith(candidates[k].s, suffixes[j])
          {
            if !candidates[i].JStr? {
              assert HasPlainSuffix(suffixes) by { assert suffixes[j] != "*"; }
              return Err(AttributeError);
            }
            if EndsWith(candidates[i].s, suffixes[j]) {
              sendMessage := true;
            }
            i := i + 1;
          }
        }
        assert suffixes[..j + 1] == suffixes[..j] + [suffixes[j]];
        j := j + 1;
      }
      assert suffixes[..j] == suffixes;
    }
    var i := 0;
    while i < |candidates|
      invariant 0 <= i <= |candidates|
      invariant sendMessage <==>
        || |suffixes| == 0 || "*" in suffixes || SuffixMatch(candidates, suffixes)
        || exists k :: 0 <= k < i && candidates[k].JStr? && candidates[k].s in emails
    {
      if candidates[i].JStr? && candidates[i].s in emails {
        sendMessage := true;
      }
      i := i + 1;
    }
    return Ok(sendMessage);
  }

  /** With no suffixes configured every event passes. */
  lemma NoSuffixesPass(candidates: seq<Json>, emails: seq<string>)
    ensures Decision(candidates, [], emails) == Ok(true)
  {
  }

  /** A "*" suffix lets every event through unless `endswith` raises on a non-string. */
  lemma StarPasses(candidates: seq<Json>, suffixes: seq<string>, emails: seq<string>)
    requires "*" in suffixes
    requires AllText(candidates) || forall j :: 0 <= j < |suffixes| ==> suffixes[j] == "*"
    ensures Decision(candidates, suffixes, emails) == Ok(true)
  {
  }

  /** With suffixes configured, none "*", no suffix match and no allow-listed email, the event is dropped. */
  lemma UnmatchedDropped(candidates: seq<Json>, suffixes: seq<string>, emails: seq<string>)
    requires |suffixes| > 0 && "*" !in suffixes && AllText(candidates)
    requires forall i, j :: 0 <= i < |candidates| && 0 <= j < |suffixes| ==> !EndsWith(candidates[i].s, suffixes[j])
    requires forall i :: 0 <= i < |candidates| ==> candidates[i].s !in emails
    ensures Decision(candidates, suffixes, emails) == Ok(false)
  {
  }

  /**
   * For string candidates the decision reads without indices: pass iff no
   * suffix is configured, "*" is one, some candidate ends with some suffix,
   * or some candidate is allow-listed.
   */
  lemma {:induction false} DecisionMeaning(candidates: seq<Json>, suffixes: seq<string>, emails: seq<string>)
    requires AllText(candidates)
    ensures Decision(candidates, suffixes, emails) == Ok(
      || suffixes == []
      || "*" in suffixes
      || (exists c, x :: c in candidates && c.JStr? && x in suffixes && EndsWith(c.s, x))
      || (exists c :: c in candidates && c.JStr? && c.s in emails))
  {
    var bySuffix := exists c, x :: c in candidates && c.JStr? && x in suffixes && EndsWith(c.s, x);
    var byList := exists c :: c in candidates && c.JStr? && c.s in emails;
    if SuffixMatch(candidates, suffixes) {
      var i, j :| 0 <= i < |candidates| && 0 <= j < |suffixes| && suffixes[j] != "*"
                  && candidates[i].JStr? && EndsWith(candidates[i].s, suffixes[j]);
      assert candidates[i] in candidates && suffixes[j] in suffixes;
    }
    if bySuffix && "*" !in suffixes {
      var c, x :| c in candidates && c.JStr? && x in suffixes && EndsWith(c.s, x);
      var i :| 0 <= i < |candidates| && candidates[i] == c;
      var j :| 0 <= j < |suffixes| && suffixes[j] == x;
      assert SuffixMatch(candidates, suffixes);
    }
    if Listed(candidates, emails) {
      var i :| 0 <= i < |candidates| && candidates[i].JStr? && candidates[i].s in emails;
      assert candidates[i] in candidates;
    }
    if byList {
      var c :| c in candidates && c.JStr? && c.s in emails;
      var i :| 0 <= i < |candidates| && candidates[i] == c;
      assert Listed(candidates, emails);
    }
  }

  /** A candidate that is not a string makes `endswith` raise as soon as a suffix other than "*" is configured. */
  lemma NonTextRaises(candidates: seq<Json>, suffixes: seq<string>, emails: seq<string>, i: nat)
    requires i < |candidates| && !candidates[i].JStr?
    requires exists x :: x in suffixes && x != "*"
    ensures Decision(candidates, suffixes, emails) == Err(AttributeError)
  {
    var x :| x in suffixes && x != "*";
    var j :| 0 <= j < |suffixes| && suffixes[j] == x;
  }
}
