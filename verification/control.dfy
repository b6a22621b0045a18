/**
 * The control messages the client sends over the data channel
 * (src/App.js:126, 262, 266-268, 273-275, 280) and the flat JSON record the
 * host parses from them (main.js:79).
 */
module Control {
  import opened Wrappers

  datatype Role = Host | Client

  datatype Direction = Down | Up

  datatype ControlMessage =
    | MouseMove(xPercent: real, yPercent: real)
    | MouseButton(dir: Direction, button: string)
    | Scroll(deltaX: real, deltaY: real)
    | Key(dir: Direction, key: string)

  /**
   * The parsed wire record. `kind` is the JSON `type` field; a field the
   * sender left out reads as 0 or "" here.
   */
  datatype Command = Command(kind: string, xPercent: real, yPercent: real,
                             button: string, deltaX: real, deltaY: real, key: string)

  function DirectionName(d: Direction): string {
    match d
    case Down => "down"
    case Up => "up"
  }

  /** The JSON `type` each message is sent with. */
  function Kind(m: ControlMessage): string {
    match m
    case MouseMove(_, _) => "mousemove"
    case MouseButton(d, _) => "mouse" + DirectionName(d)
    case Scroll(_, _) => "scroll"
    case Key(d, _) => "key" + DirectionName(d)
  }

  /** The six types the host acts on. */
  const KnownKinds: set<string> := {"mousemove", "mousedown", "mouseup", "scroll", "keydown", "keyup"}

  /**
   * `JSON.stringify` on the client followed by `JSON.parse` on the host:
   * the record carries the message's type and its fields, and reading it
   * back by type recovers the message with all its populated fields.
   */
  function Encode(m: ControlMessage): (c: Command)
    ensures c.kind == Kind(m) && c.kind in KnownKinds
    ensures Decode(c) == Some(m)
  {
    match m
    case MouseMove(x, y) => Command("mousemove", x, y, "", 0.0, 0.0, "")
    case MouseButton(d, b) => Command(if d == Down then "mousedown" else "mouseup", 0.0, 0.0, b, 0.0, 0.0, "")
    case Scroll(dx, dy) => Command("scroll", 0.0, 0.0, "", dx, dy, "")
    case Key(d, k) => Command(if d == Down then "keydown" else "keyup", 0.0, 0.0, "", 0.0, 0.0, k)
  }

  /**
   * The message a wire record stands for: one exactly when its type is one
   * of the six the host knows, and then a message of that type.
   */
  function Decode(c: Command): (r: Option<ControlMessage>)
    ensures r.Some? <==> c.kind in KnownKinds
    ensures r.Some? ==> Kind(r.value) == c.kind
  {
    if c.kind == "mousemove" then Some(MouseMove(c.xPercent, c.yPercent))
    else if c.kind == "mousedown" then Some(MouseButton(Down, c.button))
    else if c.kind == "mouseup" then Some(MouseButton(Up, c.button))
    else if c.kind == "scroll" then Some(Scroll(c.deltaX, c.deltaY))
    else if c.kind == "keydown" then Some(Key(Down, c.key))
    else if c.kind == "keyup" then Some(Key(Up, c.key))
    else None
  }

  /** `e.button === 2 ? 'right' : 'left'` (src/App.js:267, 274). */
  function ButtonName(button: int): (name: string)
    ensures name == "right" <==> button == 2
    ensures name == "left" || name == "right"
  {
    if button == 2 then "right" else "left"
  }

  /** `handleMouseDown` / `handleMouseUp`: only a client with an open channel sends. */
  function ButtonMessage(role: Option<Role>, channelOpen: bool, dir: Direction, button: int): (m: Option<ControlMessage>)
    ensures m.Some? <==> role == Some(Client) && channelOpen
    ensures m.Some? ==> m.value.MouseButton? && m.value.dir == dir && m.value.button == ButtonName(button)
  {
    if role == Some(Client) && channelOpen then Some(MouseButton(dir, ButtonName(button))) else None
  }

  /** `handleWheel`: the raw wheel deltas are sent; the host applies the divisor. */
  function WheelMessage(role: Option<Role>, channelOpen: bool, deltaX: real, deltaY: real): (m: Option<ControlMessage>)
    ensures m.Some? <==> role == Some(Client) && channelOpen
    ensures m.Some? ==> m.value == Scroll(deltaX, deltaY)
  {
    if role == Some(Client) && channelOpen then Some(Scroll(deltaX, deltaY)) else None
  }
}
