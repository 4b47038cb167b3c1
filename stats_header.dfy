/**
 * The dashboard header's two pieces of logic
 * (`apps/frontend/src/components/domain/stats-header.tsx`): the greeting
 * chosen by the hour of the day, and the date string with its first
 * character upper-cased.
 */
module StatsHeader {
  import opened Strings

  datatype Icon = Sun | CloudSun | Moon

  datatype Greeting = Greeting(text: string, icon: Icon, color: string)

  const Morning := Greeting("Bom dia", Sun, "text-yellow-500")
  const Afternoon := Greeting("Boa tarde", CloudSun, "text-orange-500")
  const Evening := Greeting("Boa noite", Moon, "text-indigo-400")

  /** `getGreeting`, for the hour `today.getHours()`. */
  function GetGreeting(hour: int): (g: Greeting)
    ensures hour < 12 <==> g == Morning
    ensures 12 <= hour < 18 <==> g == Afternoon
    ensures hour >= 18 <==> g == Evening
  {
    if hour < 12 then Morning
    else if hour < 18 then Afternoon
    else Evening
  }

  /** The position of a greeting in the day. */
  function Index(g: Greeting): nat
  {
    if g == Morning then 0 else if g == Afternoon then 1 else 2
  }

  /** Every hour of the day gets one of the three greetings, and later hours never get an earlier one. */
  lemma GreetingMonotone(h1: int, h2: int)
    requires 0 <= h1 <= h2 <= 23
    ensures GetGreeting(h1) in {Morning, Afternoon, Evening}
    ensures Index(GetGreeting(h1)) <= Index(GetGreeting(h2))
  {
  }

  /** `s.charAt(0).toUpperCase() + s.slice(1)`, with ASCII upper-casing. */
  function Capitalize(s: string): (r: string)
    ensures |r| == |s|
    ensures s == [] ==> r == []
    ensures s != [] ==> r[0] == UpperChar(s[0]) && r[1..] == s[1..]
  {
    if s == [] then [] else [UpperChar(s[0])] + s[1..]
  }

  /** Capitalising twice is capitalising once. */
  lemma CapitalizeIdempotent(s: string)
    ensures Capitalize(Capitalize(s)) == Capitalize(s)
  {
    if s != [] {
      var c := s[0];
      assert UpperChar(UpperChar(c)) == UpperChar(c);
    }
  }

  /** A pt-BR weekday such as "segunda-feira, 14 de outubro de 2026" starts in lower case and gains a capital. */
  lemma CapitalizeExample()
    ensures Capitalize("segunda-feira") == "Segunda-feira"
  {
  }
}
