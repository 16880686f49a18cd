/** The records the service passes around, one per JSON structure. */
module Types {

  datatype Option<+T> = None | Some(value: T)

  /** A State Change Notification as received, cached, queued and sent. */
  datatype Scn = Scn(components: seq<string>, enabled: Option<bool>, flag: string, role: string,
                     subRole: string, softwareStatus: string, state: string)

  const EMPTY_SCN := Scn([], None, "", "", "", "", "")

  /** A subscription request body, and the shape listings answer with. */
  datatype ScnSubscribe = ScnSubscribe(components: seq<string>, subscriber: string,
                                       subscriberComponent: string, subscriberAgent: string,
                                       enabled: Option<bool>, roles: seq<string>, subRoles: seq<string>,
                                       softwareStatus: seq<string>, states: seq<string>, url: string)

  const EMPTY_SUBSCRIBE := ScnSubscribe([], "", "", "", None, [], [], [], [], "")

  /** What the store holds under a subscription key. */
  datatype SubData = SubData(url: string, scnNodes: seq<string>)

  /** One key-value record of a range read. */
  datatype Record = Record(key: string, value: SubData)

  /** One queued send: the SCN to deliver, the subscriber's xname, its URL. */
  datatype Job = Job(scn: Scn, subscriber: string, url: string)
}
