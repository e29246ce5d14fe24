/** CloudKit records as plain values: the identity, the type and the open
    field map of a CKRecord, and the parent reference a child record carries. */
module Records {

  datatype Option<T> = None | Some(value: T)

  /** CKRecord.ID in the default zone: only the record name is modelled. */
  datatype RecordID = RecordID(recordName: string)

  /** CKRecord.Reference.Action */
  datatype ReferenceAction = NoReferenceAction | DeleteSelf

  /** CKRecord.Reference: a one-directional link from a child record to its parent. */
  datatype Reference = Reference(recordID: RecordID, action: ReferenceAction)

  /** The values this program stores in record fields. */
  datatype FieldValue = Text(text: string) | Ref(reference: Reference)

  datatype Record = Record(recordType: string, recordID: RecordID, fields: map<string, FieldValue>)
}
