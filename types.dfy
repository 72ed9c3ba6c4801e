/** The entities of the chat client (src/types/index.ts).
    Dates are integers: milliseconds since the epoch. A JavaScript `null`
    or an absent optional field is `None`. */
module Types {

  datatype Option<T> = None | Some(value: T)

  /** JavaScript truthiness of an optional string: present and not `""`. */
  predicate Truthy(o: Option<string>) {
    o.Some? && o.value != ""
  }

  /** `sender: "user" | "ai"` */
  datatype Sender = User | Ai

  /** A chat message; `image` is an optional data URI. */
  datatype Message = Message(
    id: string,
    content: string,
    sender: Sender,
    timestamp: int,
    image: Option<string>)

  /** A chat room: an ordered message history and two timestamps. */
  datatype Chatroom = Chatroom(
    id: string,
    title: string,
    messages: seq<Message>,
    createdAt: int,
    updatedAt: int)

  /** The chat slice of the store. */
  datatype ChatState = ChatState(
    chatrooms: seq<Chatroom>,
    activeChatroomId: Option<string>,
    isTyping: bool)

  /** `idd` of a country record: a dial root and optional suffixes. The
      directory service may omit the root, so it is optional here. */
  datatype Idd = Idd(root: Option<string>, suffixes: Option<seq<string>>)

  /** A country record; only `name.common`, `cca2`, `idd` and `flags.svg` are used. */
  datatype Country = Country(name: string, cca2: string, idd: Option<Idd>, flag: string)
}
