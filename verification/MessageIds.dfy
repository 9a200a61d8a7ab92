/** Ids of chat messages: those the service mints for a text on its way out, and those the
    provider gives out. The two never meet. */
module MessageIds {
  datatype MsgId = Tmp(send: nat) | Provider(id: nat)
}
