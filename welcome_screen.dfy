/** `WelcomeScreen`: the last onboarding step. It rotates through four tips, shows the first four
    chosen skills with a "+k more" badge for the rest, and picks a subtitle from the collected
    data. */
module WelcomeScreen {
  import opened Wrappers
  import opened Text
  import opened Records

  const Tips: seq<string> := [
    "Complete your profile to get better team recommendations",
    "Join conversations by commenting and liking posts",
    "Share your project progress to inspire others",
    "Use polls to gather feedback from the community"
  ]

  /** The tip shown after `n` clicks on "Next tip" starting from tip `i`, one click at a time. */
  function Advance(i: nat, n: nat): nat
    decreases n
  {
    if n == 0 then i else Advance((i + 1) % |Tips|, n - 1)
  }

  /** Clicking `n` times moves `n` places round the ring of tips: the index stays in range and
      every four clicks come back to the start. */
  lemma {:induction false} AdvanceIsRotation(i: nat, n: nat)
    requires i < |Tips|
    ensures Advance(i, n) == (i + n) % |Tips|
    ensures Advance(i, n) < |Tips|
    decreases n
  {
    if n > 0 {
      AdvanceIsRotation((i + 1) % |Tips|, n - 1);
      assert ((i + 1) % 4 + (n - 1)) % 4 == (i + n) % 4;
    }
  }

  /** Four clicks show the tip one started from. */
  lemma FourClicksReturn(i: nat)
    requires i < |Tips|
    ensures Advance(i, 4) == i
  {
    AdvanceIsRotation(i, 4);
  }

  /** The tip carousel's state. */
  class TipCarousel {
    var currentTip: nat

    predicate Valid()
      reads this
    {
      currentTip < |Tips|
    }

    constructor ()
      ensures currentTip == 0 && Valid()
    {
      currentTip := 0;
    }

    /** `nextTip`: one place on, wrapping after the last tip. */
    method NextTip()
      requires Valid()
      modifies this
      ensures currentTip == Advance(old(currentTip), 1) && Valid()
    {
      currentTip := (currentTip + 1) % |Tips|;
    }

    function Shown(): string
      requires Valid()
      reads this
    {
      Tips[currentTip]
    }
  }

  /** The tip on screen after `n` clicks on a fresh screen. */
  method TipAfterClicks(n: nat) returns (index: nat, tip: string)
    ensures index == n % |Tips| && tip == Tips[index]
  {
    var carousel := new TipCarousel();
    var k := 0;
    while k < n
      invariant 0 <= k <= n
      invariant carousel.Valid() && carousel.currentTip == Advance(0, k)
    {
      carousel.NextTip();
      AdvanceSteps(0, k);
      k := k + 1;
    }
    AdvanceIsRotation(0, n);
    index := carousel.currentTip;
    tip := carousel.Shown();
  }

  /** One more click after `k` clicks. */
  lemma {:induction false} AdvanceSteps(i: nat, k: nat)
    ensures Advance(Advance(i, k), 1) == Advance(i, k + 1)
    decreases k
  {
    if k > 0 {
      AdvanceSteps((i + 1) % |Tips|, k - 1);
    }
  }

  // ----- the skills preview -----

  /** `skills.slice(0, 4)`: the first four skills, or all of them when there are fewer. */
  function Preview(skills: seq<string>): (r: seq<string>)
    ensures |r| == if |skills| < 4 then |skills| else 4
    ensures forall i :: 0 <= i < |r| ==> r[i] == skills[i]
  {
    if |skills| <= 4 then skills else skills[..4]
  }

  /** The "+k more" badge: present exactly when some skill is not previewed. */
  function MoreBadge(skills: seq<string>): (b: Option<string>)
    ensures b.Some? <==> |skills| > 4
    ensures b.Some? ==> b.value == "+" + IntToString(|skills| - 4) + " more"
  {
    if |skills| > 4 then Some("+" + IntToString(|skills| - 4) + " more") else None
  }

  /** Nothing is lost: the badge's number reads back as the number of skills not previewed, so
      preview and badge together account for every skill. */
  lemma PreviewAndBadgeCountAll(skills: seq<string>)
    ensures MoreBadge(skills).None? ==> Preview(skills) == skills
    ensures MoreBadge(skills).Some? ==>
      var text := MoreBadge(skills).value;
      && IsDecimal(text[1..|text| - 5])
      && |Preview(skills)| + DecimalValue(text[1..|text| - 5]) == |skills|
  {
    if |skills| > 4 {
      var digits := IntToString(|skills| - 4);
      var text := "+" + digits + " more";
      assert text[1..|text| - 5] == digits;
      IntToStringRoundTrip(|skills| - 4);
    }
  }

  /** The skills block: shown only when `userData.skills` is a non-empty list. */
  function SkillsBlock(userData: Record): (r: Option<(seq<string>, Option<string>)>)
    ensures r.Some? <==> "skills" in userData && userData["skills"].Strs? && |userData["skills"].items| > 0
    ensures r.Some? ==> r.value == (Preview(userData["skills"].items), MoreBadge(userData["skills"].items))
  {
    if "skills" in userData && userData["skills"].Strs? && |userData["skills"].items| > 0 then
      var skills := userData["skills"].items;
      Some((Preview(skills), MoreBadge(skills)))
    else None
  }

  // ----- the subtitle -----

  /** A string-valued property as a template literal shows it. */
  function ShownText(userData: Record, k: string): string {
    if k in userData && userData[k].Str? then userData[k].s else ""
  }

  datatype Subtitle = YearAndMajor(text: string) | UniversityLine

  /** Year and major joined by a bullet when both are truthy; the university otherwise. */
  function SubtitleFor(userData: Record): (t: Subtitle)
    ensures t.YearAndMajor? <==> Truthy(userData, "year") && Truthy(userData, "major")
    ensures t.YearAndMajor? ==> t.text == ShownText(userData, "year") + " • " + ShownText(userData, "major")
  {
    if Truthy(userData, "year") && Truthy(userData, "major") then
      YearAndMajor(ShownText(userData, "year") + " • " + ShownText(userData, "major"))
    else UniversityLine
  }

  /** Leaving either the year or the major empty in the profile step falls back to the
      university. */
  lemma EmptyYearOrMajorShowsUniversity(userData: Record, year: string, major: string)
    requires year == "" || major == ""
    ensures SubtitleFor(userData["year" := Str(year)]["major" := Str(major)]) == UniversityLine
  {
  }

  /** Filled-in year and major are both shown, in that order. */
  lemma YearAndMajorShown(userData: Record, year: string, major: string)
    requires year != "" && major != ""
    ensures SubtitleFor(userData["year" := Str(year)]["major" := Str(major)]) == YearAndMajor(year + " • " + major)
  {
  }
}
