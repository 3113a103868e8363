/** The records the contexts pass around (types/index.ts), with the fields the
    contexts actually read even where that file does not declare them. */
module Types {
  import opened Wrappers

  /** The signed-in user; `isOnline` and `lastSeen` are added by the presence update. */
  datatype User = User(
    id: int,
    username: string,
    email: string,
    avatar: Option<string>,
    bio: Option<string>,
    createdAt: string,
    isOnline: Option<bool>,
    lastSeen: Option<string>)

  datatype FileKind = Image | Video | Document | Audio

  /** A chat message as the server returns it and the push channels deliver it.
      `isPrivate`, `senderId` and `receiverId` are read by the chat context. */
  datatype Message = Message(
    id: int,
    username: string,
    message: Option<string>,
    fileUrl: Option<string>,
    fileName: Option<string>,
    fileType: Option<FileKind>,
    fileSize: Option<int>,
    createdAt: string,
    isPrivate: bool,
    senderId: int,
    receiverId: Option<int>)

  /** A picked or recorded file: `type` in the source is the MIME type. */
  datatype FileData = FileData(uri: string, name: string, mimeType: string, size: Option<int>)

  /** JavaScript truthiness of an optional numeric id: present and not 0. */
  predicate IsTruthyId(id: Option<int>) {
    id.Some? && id.value != 0
  }

  /** JavaScript truthiness of an optional string: present and not empty. */
  predicate IsTruthyText(s: Option<string>) {
    s.Some? && s.value != ""
  }
}
