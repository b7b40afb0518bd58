/** How `productAPI` shapes what it sends and what it returns: the multipart
    fields of `create` and `update`, the compress-or-keep decision for an
    image, the array normalisation of `getAll` and `search`, and the fallback
    of `getStats`. */
module Payload {
  import opened Http

  /** Images strictly larger than one mebibyte are compressed. */
  const CompressThreshold: nat := 1024 * 1024

  /** The `productData` argument of `create` / `update`. `price` is the text
      `price.toString()` produces; `image` is absent when falsy. */
  datatype ProductInput = ProductInput(
    name: string,
    description: Option<string>,
    price: string,
    image: Option<Image>,
    removeImage: bool)

  /** The `options` argument: only an explicit `false` turns compression off. */
  datatype UploadOptions = UploadOptions(compressImages: Option<bool>)

  /** `options.compressImages !== false && image.size > 1024 * 1024` */
  predicate ShouldCompress(img: Image, opts: UploadOptions)
  {
    opts.compressImages != Some(false) && img.Size() > CompressThreshold
  }

  /** The file appended as `image`: the compressed one when compression is
      due and `compressImage` produced one (`compressed`), otherwise the
      original, which is also the fallback when compression fails (None:
      the canvas threw, or `toBlob` gave no blob, whose `.size` then throws
      inside the same `try`). */
  function ImageToUpload(img: Image, opts: UploadOptions, compressed: Option<Image>): Image
  {
    if ShouldCompress(img, opts) && compressed.Some? then compressed.value else img
  }

  /** The fields `create` appends, in order. */
  function ProductFields(p: ProductInput, opts: UploadOptions, compressed: Option<Image>): seq<FormField>
  {
    [("name", TextValue(p.name)),
     ("description", TextValue(OrElse(p.description, ""))),
     ("price", TextValue(p.price))]
    + (if p.image.Some? then [("image", FileValue(ImageToUpload(p.image.value, opts, compressed)))] else [])
  }

  /** The fields `update` appends: those of `create`, then the removal flag. */
  function UpdateFields(p: ProductInput, opts: UploadOptions, compressed: Option<Image>): seq<FormField>
  {
    ProductFields(p, opts, compressed)
    + (if p.removeImage then [("remove_image", TextValue("true"))] else [])
  }

  function Keys(fields: seq<FormField>): (keys: seq<string>)
    ensures |keys| == |fields|
    ensures forall i :: 0 <= i < |fields| ==> keys[i] == fields[i].0
  {
    if fields == [] then [] else [fields[0].0] + Keys(fields[1..])
  }

  /** `Array.isArray(response.data) ? response.data : []` */
  function AsList(data: Json): seq<Json>
  {
    if data.JArray? then data.items else []
  }

  /** The value `getStats` falls back to. */
  const DefaultStats := JObject([("total", JNumber(0)), ("average_price", JNumber(0))])

  /** `getStats`: the response body, or the fallback on any error. */
  function StatsOrDefault(reply: Reply): Json
  {
    if reply.Success? then reply.data else DefaultStats
  }

  /** The multipart payload is exactly name, description, price and, when an
      image is given, image, in that order. */
  lemma ProductFieldKeys(p: ProductInput, opts: UploadOptions, compressed: Option<Image>)
    ensures Keys(ProductFields(p, opts, compressed))
      == ["name", "description", "price"] + (if p.image.Some? then ["image"] else [])
  {
    var f := ProductFields(p, opts, compressed);
    var k := ["name", "description", "price"] + (if p.image.Some? then ["image"] else []);
    assert forall i :: 0 <= i < |k| ==> Keys(f)[i] == k[i];
  }

  /** `remove_image` is sent, with the value "true", exactly when removal was
      asked for; nothing else differs from what `create` would send. */
  lemma RemoveImageOnlyWhenAsked(p: ProductInput, opts: UploadOptions, compressed: Option<Image>)
    ensures "remove_image" in Keys(UpdateFields(p, opts, compressed)) <==> p.removeImage
    ensures p.removeImage ==> UpdateFields(p, opts, compressed)[|UpdateFields(p, opts, compressed)| - 1]
                              == ("remove_image", TextValue("true"))
    ensures UpdateFields(p, opts, compressed)[..|ProductFields(p, opts, compressed)|] == ProductFields(p, opts, compressed)
    ensures !p.removeImage ==> UpdateFields(p, opts, compressed) == ProductFields(p, opts, compressed)
  {
    ProductFieldKeys(p, opts, compressed);
    var base := ProductFields(p, opts, compressed);
    var u := UpdateFields(p, opts, compressed);
    var extra := if p.removeImage then ["remove_image"] else [];
    assert Keys(u) == Keys(base) + extra by {
      assert forall i :: 0 <= i < |u| ==> Keys(u)[i] == (Keys(base) + extra)[i];
    }
  }

  /** The image sent is the original unless the image is over the threshold,
      compression was not turned off and the compressor produced a result;
      and when all three hold the compressor's result is sent; in particular
      a compression failure sends the original bytes, and an image of at most
      1048576 bytes is never compressed. */
  lemma ImageKeptUnlessCompressed(img: Image, opts: UploadOptions, compressed: Option<Image>)
    ensures ImageToUpload(img, opts, compressed) != img ==>
      opts.compressImages != Some(false) && img.Size() > 1048576 && compressed == Some(ImageToUpload(img, opts, compressed))
    ensures opts.compressImages != Some(false) && img.Size() > 1048576 && compressed.Some? ==>
      ImageToUpload(img, opts, compressed) == compressed.value
    ensures compressed.None? ==> ImageToUpload(img, opts, compressed).bytes == img.bytes
    ensures img.Size() <= 1048576 ==> ImageToUpload(img, opts, compressed) == img
    ensures opts.compressImages == Some(false) ==> ImageToUpload(img, opts, compressed) == img
  {
  }

  /** A payload with an image carries the image to upload as its fourth
      field; one without carries no file at all. */
  lemma ImageField(p: ProductInput, opts: UploadOptions, compressed: Option<Image>)
    ensures p.image.Some? ==> ProductFields(p, opts, compressed)[3]
                              == ("image", FileValue(ImageToUpload(p.image.value, opts, compressed)))
    ensures p.image.None? ==> forall i :: 0 <= i < |ProductFields(p, opts, compressed)| ==>
                              ProductFields(p, opts, compressed)[i].1.TextValue?
  {
  }

  /** A missing or empty description is sent as "". */
  lemma DescriptionDefaultsToEmpty(p: ProductInput, opts: UploadOptions, compressed: Option<Image>)
    requires !Truthy(p.description)
    ensures ProductFields(p, opts, compressed)[1] == ("description", TextValue(""))
  {
  }

  /** A body that is an array is returned as is; anything else becomes []. */
  lemma AsListNormalises(data: Json)
    ensures data.JArray? ==> AsList(data) == data.items
    ensures !data.JArray? ==> AsList(data) == []
    ensures AsList(JArray(AsList(data))) == AsList(data)
  {
  }

  /** `getStats` never fails: an error gives zero products at price zero. */
  lemma StatsFallback(reply: Reply)
    ensures reply.Failure? ==> StatsOrDefault(reply) == JObject([("total", JNumber(0)), ("average_price", JNumber(0))])
    ensures reply.Success? ==> StatsOrDefault(reply) == reply.data
  {
  }

  /** A `FormData` buffer: the fields appended so far, in order. */
  class FormData {
    var entries: seq<FormField>

    constructor ()
      ensures entries == []
    {
      entries := [];
    }

    /** `formData.append(key, value)` */
    method Append(key: string, value: FormValue)
      modifies this
      ensures entries == old(entries) + [(key, value)]
    {
      entries := entries + [(key, value)];
    }
  }

  /** The shared part of `create` and `update`: a fresh buffer filled field by
      field; the image is chosen after consulting the compressor's outcome. */
  method BuildProductForm(p: ProductInput, opts: UploadOptions, compressed: Option<Image>) returns (form: FormData)
    ensures fresh(form)
    ensures form.entries == ProductFields(p, opts, compressed)
  {
    form := new FormData();
    form.Append("name", TextValue(p.name));
    form.Append("description", TextValue(OrElse(p.description, "")));
    form.Append("price", TextValue(p.price));
    if p.image.Some? {
      var imageToUpload := p.image.value;
      if ShouldCompress(p.image.value, opts) {
        if compressed.Some? {
          imageToUpload := compressed.value;
        } else {
          // compression failed: keep the original
          imageToUpload := p.image.value;
        }
      }
      form.Append("image", FileValue(imageToUpload));
    }
  }

  /** `update`'s buffer: the product fields, then `remove_image` if asked. */
  method BuildUpdateForm(p: ProductInput, opts: UploadOptions, compressed: Option<Image>) returns (form: FormData)
    ensures fresh(form)
    ensures form.entries == UpdateFields(p, opts, compressed)
  {
    form := BuildProductForm(p, opts, compressed);
    if p.removeImage {
      form.Append("remove_image", TextValue("true"));
    }
  }
}
