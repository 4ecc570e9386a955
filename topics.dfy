/** The topic enumeration shared by the service and the web front end. */
module Topics {
  import opened Outcomes

  /** The topics a summary can be framed for, in declaration order. */
  datatype Topic = Generic | Development | Marketing | Legal | Comedy

  /** The enum's `ToString()`: the member's name. */
  function TopicName(t: Topic): (s: string)
    ensures |s| > 0 && ' ' !in s && '/' !in s
  {
    match t
    case Generic => "Generic"
    case Development => "Development"
    case Marketing => "Marketing"
    case Legal => "Legal"
    case Comedy => "Comedy"
  }

  /** The name-matching part of `Enum.Parse`: the member whose name is exactly `s`. */
  function ParseTopic(s: string): (r: Option<Topic>)
    ensures r.Some? ==> TopicName(r.value) == s
    ensures r.None? ==> forall t: Topic :: TopicName(t) != s
  {
    if s == "Generic" then Some(Generic)
    else if s == "Development" then Some(Development)
    else if s == "Marketing" then Some(Marketing)
    else if s == "Legal" then Some(Legal)
    else if s == "Comedy" then Some(Comedy)
    else None
  }

  /** Rendering a topic and parsing the name back yields the same topic, so distinct topics have distinct names. */
  lemma TopicNameRoundTrip(t: Topic)
    ensures ParseTopic(TopicName(t)) == Some(t)
  {
  }
}
