/** Records shared by the integration's setup and its light platform: the device and
    product dictionaries that the vendor cloud returns and the config entry keeps. */
module Records {

  datatype Option<+T> = None | Some(value: T)

  datatype Result<+T, +E> = Ok(value: T) | Err(error: E)

  /** The "aesKey" entry of a device record: missing, or a list whose elements may be null. */
  datatype AesKeyField = NoAesKey | AesKeys(keys: seq<Option<string>>)

  /** A product record; only its "id" is interpreted, the rest is carried along. */
  datatype Product = Product(id: string, attributes: map<string, string>)

  /** A device record as stored in the config entry's device list. */
  datatype Device = Device(
    id: Option<string>,       // "id", read with get(), so it may be missing
    productId: string,        // "productId"
    kind: Option<string>,     // "type", read with get(), so it may be missing
    aesKey: AesKeyField,      // "aesKey"
    product: Option<Product>  // "product", attached by the product join
  )

  /** The login information stored in the config entry, passed through opaquely. */
  datatype LoginInfo = LoginInfo(fields: map<string, string>)
}
