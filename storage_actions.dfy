/**
 The downstream storage operations a command handler may call, as opaque
 tags. An `Action` names the command family and carries that family's
 operation; together they name exactly one downstream function, and the
 fields read left to right (outer first, then the operation's own) are
 that function's arguments in the order the handler passes them. For
 example `ObjectAcl(b, o, AddAcl(e, r))` is `add_object_acl(b, o, e, r)`
 and `Objects(b, Move(o, b2, o2))` is `move_object(b, o, b2, o2)`. What
 the operations do against the storage service is not part of this model.
 */
module StorageActions {
  import opened PhpValues

  /** The ACL operations: `add_*_acl`, `delete_*_acl`, `get_*_acl_for_entity`, `get_*_acl`. */
  datatype AclOp =
    | AddAcl(entity: string, role: string)
    | DeleteAcl(entity: string)
    | GetAclForEntity(entity: string)
    | GetAcl

  /** `add_bucket_label`, `remove_bucket_label`, `get_bucket_labels`. */
  datatype LabelOp =
    | AddLabel(labelName: string, value: string)
    | RemoveLabel(labelName: string)
    | GetLabels

  /** `create_bucket`, `delete_bucket`, `list_buckets`. */
  datatype BucketOp =
    | CreateBucket(bucket: string)
    | DeleteBucket(bucket: string)
    | ListBuckets

  /**
   `generate_encryption_key`, `upload_encrypted_object`,
   `download_encrypted_object`, `rotate_encryption_key`. The
   customer-supplied key of an upload or download is passed on as given,
   null included.
   */
  datatype EncryptionOp =
    | GenerateKey
    | UploadEncrypted(bucket: string, objectName: string, source: string, key: Option<string>)
    | DownloadEncrypted(bucket: string, objectName: string, destination: string, key: Option<string>)
    | RotateKey(bucket: string, objectName: string, oldKey: string, newKey: string)

  /** `add_bucket_iam_member`, `remove_bucket_iam_member`, `view_bucket_iam_members`. */
  datatype IamOp =
    | AddMember(role: string, member: string)
    | RemoveMember(role: string, member: string)
    | ViewMembers

  /**
   `upload_object`, `download_object`, `move_object`, `copy_object`,
   `make_public`, `delete_object`, `object_metadata`,
   `list_objects_with_prefix`, `list_objects`.
   */
  datatype ObjectOp =
    | Upload(objectName: string, source: string)
    | Download(objectName: string, destination: string)
    | Move(objectName: string, newBucket: string, newObject: string)
    | Copy(objectName: string, newBucket: string, newObject: string)
    | MakePublic(objectName: string)
    | Delete(objectName: string)
    | Metadata(objectName: string)
    | ListWithPrefix(prefix: string)
    | List

  /**
   `download_file_requester_pays`, `enable_requester_pays`,
   `disable_requester_pays`, `get_requester_pays_status`.
   */
  datatype PaysOp =
    | DownloadFile(objectName: string, destination: string)
    | Enable
    | Disable
    | GetStatus

  datatype Action =
    | BucketAcl(bucket: string, aclOp: AclOp)
    | BucketDefaultAcl(bucket: string, aclOp: AclOp)
    | BucketLabels(bucket: string, labelOp: LabelOp)
    | Buckets(bucketOp: BucketOp)
    | Encryption(encryptionOp: EncryptionOp)
    | Iam(bucket: string, iamOp: IamOp)
    | ObjectAcl(bucket: string, objectName: string, aclOp: AclOp)
    | Objects(bucket: string, objectOp: ObjectOp)
    | RequesterPays(project: string, bucket: string, paysOp: PaysOp)
    | EnableDefaultKmsKey(project: string, bucket: string, kmsKeyName: string)
    | UploadWithKmsKey(project: string, bucket: string, objectName: string, uploadFrom: string, kmsKeyName: string)

  /** The name of the console command whose handler calls this operation. */
  function Owner(a: Action): string {
    match a
    case BucketAcl(_, _) => "bucket-acl"
    case BucketDefaultAcl(_, _) => "bucket-default-acl"
    case BucketLabels(_, _) => "bucket-labels"
    case Buckets(_) => "buckets"
    case Encryption(_) => "encryption"
    case Iam(_, _) => "iam"
    case ObjectAcl(_, _, _) => "object-acl"
    case Objects(_, _) => "objects"
    case RequesterPays(_, _, _) => "requester-pays"
    case EnableDefaultKmsKey(_, _, _) => "enable-default-kms-key"
    case UploadWithKmsKey(_, _, _, _, _) => "upload-with-kms-key"
  }

  /**
   The calls a handler can make at all: every argument the handler tested
   for truthiness before choosing the operation is truthy, and a move or
   copy keeps the object in its own bucket. Arguments the handler never
   tests (a required bucket name, an ACL role, the key passed with an
   encrypted upload) may be any string, "" included.
   */
  predicate Admissible(a: Action) {
    match a
    case BucketAcl(_, op) => AclAdmissible(op)
    case BucketDefaultAcl(_, op) => AclAdmissible(op)
    case BucketLabels(_, op) => LabelAdmissible(op)
    case Buckets(op) => BucketAdmissible(op)
    case Encryption(op) => EncryptionAdmissible(op)
    case Iam(_, op) => IamAdmissible(op)
    case ObjectAcl(_, _, op) => AclAdmissible(op)
    case Objects(bucket, op) => ObjectAdmissible(bucket, op)
    case RequesterPays(_, _, op) => PaysAdmissible(op)
    case EnableDefaultKmsKey(_, _, _) => true
    case UploadWithKmsKey(_, _, _, _, _) => true
  }

  predicate AclAdmissible(op: AclOp) {
    match op
    case AddAcl(entity, _) => TruthyString(entity)
    case DeleteAcl(entity) => TruthyString(entity)
    case GetAclForEntity(entity) => TruthyString(entity)
    case GetAcl => true
  }

  predicate LabelAdmissible(op: LabelOp) {
    match op
    case AddLabel(labelName, value) => TruthyString(labelName) && TruthyString(value)
    case RemoveLabel(labelName) => TruthyString(labelName)
    case GetLabels => true
  }

  predicate BucketAdmissible(op: BucketOp) {
    match op
    case CreateBucket(bucket) => TruthyString(bucket)
    case DeleteBucket(bucket) => TruthyString(bucket)
    case ListBuckets => true
  }

  predicate EncryptionAdmissible(op: EncryptionOp) {
    match op
    case GenerateKey => true
    case UploadEncrypted(bucket, objectName, source, _) =>
      TruthyString(bucket) && TruthyString(objectName) && TruthyString(source)
    case DownloadEncrypted(bucket, objectName, destination, _) =>
      TruthyString(bucket) && TruthyString(objectName) && TruthyString(destination)
    case RotateKey(bucket, objectName, _, newKey) =>
      TruthyString(bucket) && TruthyString(objectName) && TruthyString(newKey)
  }

  predicate IamAdmissible(op: IamOp) {
    match op
    case AddMember(role, member) => TruthyString(role) && TruthyString(member)
    case RemoveMember(role, member) => TruthyString(role) && TruthyString(member)
    case ViewMembers => true
  }

  predicate ObjectAdmissible(bucket: string, op: ObjectOp) {
    match op
    case Upload(objectName, source) => TruthyString(objectName) && TruthyString(source)
    case Download(objectName, destination) => TruthyString(objectName) && TruthyString(destination)
    case Move(objectName, newBucket, newObject) =>
      TruthyString(objectName) && newBucket == bucket && TruthyString(newObject)
    case Copy(objectName, newBucket, newObject) =>
      TruthyString(objectName) && newBucket == bucket && TruthyString(newObject)
    case MakePublic(objectName) => TruthyString(objectName)
    case Delete(objectName) => TruthyString(objectName)
    case Metadata(objectName) => TruthyString(objectName)
    case ListWithPrefix(prefix) => TruthyString(prefix)
    case List => true
  }

  predicate PaysAdmissible(op: PaysOp) {
    match op
    case DownloadFile(objectName, destination) => TruthyString(objectName) && TruthyString(destination)
    case Enable => true
    case Disable => true
    case GetStatus => true
  }
}
