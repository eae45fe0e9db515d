/** split_telegram_text (delivery.py): cut a report into messages the transport accepts. */
module TelegramText {
  const MAX_TELEGRAM_CHARS := 4096

  /** `rfind("\n", 0, n)`: the last newline among the first n characters, or -1. */
  function LastNewline(s: string, n: nat): (r: int)
    requires n <= |s|
    ensures -1 <= r < n
    ensures r >= 0 ==> s[r] == '\n'
    ensures forall k :: r < k < n ==> s[k] != '\n'
  {
    if n == 0 then -1 else if s[n - 1] == '\n' then n - 1 else LastNewline(s, n - 1)
  }

  function Boundary(s: string, max: nat): (b: nat)
    requires 1 <= max < |s|
    ensures 1 <= b <= max
  {
    var at := LastNewline(s, max + 1);
    if at <= 0 then max else at
  }

  function Parts(s: string, max: nat): seq<string>
    requires max >= 1
    decreases |s|
  {
    if |s| <= max then (if s == "" then [] else [s])
    else [s[..Boundary(s, max)]] + Parts(s[Boundary(s, max)..], max)
  }

  function Concat(parts: seq<string>): string {
    if parts == [] then "" else parts[0] + Concat(parts[1..])
  }

  /** The parts rebuild the text exactly, and each is a sendable message. */
  lemma {:induction false} PartsRebuild(s: string, max: nat)
    requires max >= 1
    ensures Concat(Parts(s, max)) == s
    ensures forall k :: 0 <= k < |Parts(s, max)| ==> 1 <= |Parts(s, max)[k]| <= max
    ensures Parts(s, max) == [] <==> s == ""
    decreases |s|
  {
    if |s| <= max {
      if s != "" {
        assert [s][1..] == [];
        assert s + "" == s;
      }
    } else {
      var b := Boundary(s, max);
      PartsRebuild(s[b..], max);
      assert Parts(s, max)[1..] == Parts(s[b..], max);
      assert s[..b] + s[b..] == s;
    }
  }

  /** Cuts fall on newlines: a part is followed either by a part that starts with a newline,
      or it is full and held no newline to cut at. */
  lemma {:induction false} CutsPreferNewlines(s: string, max: nat, k: nat)
    requires max >= 1 && k + 1 < |Parts(s, max)|
    ensures var p := Parts(s, max);
      (p[k + 1] != "" && p[k + 1][0] == '\n')
      || (|p[k]| == max && forall j :: 1 <= j < max ==> p[k][j] != '\n')
    decreases |s|
  {
    var b := Boundary(s, max);
    var rest := Parts(s[b..], max);
    PartsRebuild(s[b..], max);
    if k > 0 {
      CutsPreferNewlines(s[b..], max, k - 1);
    } else {
      assert rest[0] <= s[b..] by { PrefixOfRest(s[b..], max); }
    }
  }

  lemma PrefixOfRest(s: string, max: nat)
    requires max >= 1 && s != ""
    ensures Parts(s, max) != [] && Parts(s, max)[0] <= s && Parts(s, max)[0] != ""
  {
  }

  method SplitTelegramText(text: string, max: nat) returns (parts: seq<string>)
    requires max >= 1
    ensures parts == Parts(text, max)
  {
    parts := [];
    var remaining := text;
    while |remaining| > max
      invariant parts + Parts(remaining, max) == Parts(text, max)
      decreases |remaining|
    {
      var boundary := LastNewline(remaining, max + 1);
      if boundary <= 0 { boundary := max; }
      parts := parts + [remaining[..boundary]];
      remaining := remaining[boundary..];
    }
    if remaining != "" { parts := parts + [remaining]; }
  }
}
