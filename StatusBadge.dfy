/** The status pill (src/components/StatusBadge.tsx). */
module StatusBadge {
  import opened Types
  import Api

  /** The rendered pill: its CSS class string and its text. */
  datatype Badge = Badge(className: string, text: string)

  /** The classes every badge carries before its colour. */
  const BadgeClasses: string := "px-3 py-1 rounded-full text-xs font-semibold text-white "

  /** `StatusBadge({status})`: the shared classes, the status colour, the status text. */
  function Render(status: string): (b: Badge)
    ensures |b.className| > |BadgeClasses| && b.className[..|BadgeClasses|] == BadgeClasses
    ensures b.className[|BadgeClasses|..] in Api.Palette
    ensures b.className[|BadgeClasses|..] == Api.GetStatusColor(status)
    ensures b.text == Api.GetStatusText(status)
  {
    Badge(BadgeClasses + Api.GetStatusColor(status), Api.GetStatusText(status))
  }

  /** An unknown status renders gray with its raw text, like any other value. */
  lemma RenderUnknown(status: string)
    requires ParseStatus(status).None?
    ensures Render(status) == Badge(BadgeClasses + "bg-gray-500", status)
  {
  }

  /** Two of the six statuses render the same badge only if they are the same status. */
  lemma {:induction false} RenderDistinguishesStatuses(s: FlightStatus, t: FlightStatus)
    requires Render(s.Code()).className == Render(t.Code()).className
           || Render(s.Code()).text == Render(t.Code()).text
    ensures s == t
  {
    var n := |BadgeClasses|;
    if Render(s.Code()).className == Render(t.Code()).className {
      assert Render(s.Code()).className[n..] == Render(t.Code()).className[n..];
      Api.StatusColorsDistinct(s, t);
    } else {
      Api.StatusTextsDistinct(s, t);
    }
  }
}
