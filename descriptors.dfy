/** `WriteDescriptorSets` of `src/Shaders.cpp`: the write records handed
    to `vkUpdateDescriptorSets` for up to three descriptor groups (storage
    images, storage buffers, uniform buffers) bound one after the other in
    one descriptor set.  The driver call itself is left out; the method
    returns the count and the records it would pass. */
module Descriptors {

  import opened Versions
  import opened VulkanTypes

  /** `VkDescriptorType` values. */
  const DescriptorTypeStorageImage: nat := 3
  const DescriptorTypeUniformBuffer: nat := 6
  const DescriptorTypeStorageBuffer: nat := 7

  /** A `VkDescriptorImageInfo`; all three groups are passed as such. */
  datatype ImageInfo = ImageInfo(sampler: nat, imageView: nat, imageLayout: nat)

  /** The fields of a `VkWriteDescriptorSet` the function sets; `imageInfo`
      is the array `pImageInfo` points to. */
  datatype WriteDescriptorSet = WriteDescriptorSet(
    dstSet: Handle,
    descriptorType: nat,
    dstBinding: Word,
    descriptorCount: Word,
    imageInfo: seq<ImageInfo>)

  /** A value-initialized record, as `emplace_back()` appends it. */
  const EmptyWrite := WriteDescriptorSet(NullHandle, 0, 0, 0, [])

  /** The record for one group. */
  function GroupWrite(descriptorSet: Handle, descriptorType: nat, binding: int, group: seq<ImageInfo>): WriteDescriptorSet
  {
    WriteDescriptorSet(descriptorSet, descriptorType, U32(binding), U32(|group|), group)
  }

  /** One record per non-empty group, in the order images, storage
      buffers, uniform buffers; the storage buffers start at the binding
      after the images, the uniform buffers after both. */
  function Writes(descriptorSet: Handle, images: seq<ImageInfo>, storageBuffers: seq<ImageInfo>,
                  uniformBuffers: seq<ImageInfo>): seq<WriteDescriptorSet>
  {
    (if |images| > 0 then [GroupWrite(descriptorSet, DescriptorTypeStorageImage, 0, images)] else [])
    + (if |storageBuffers| > 0
       then [GroupWrite(descriptorSet, DescriptorTypeStorageBuffer, |images|, storageBuffers)] else [])
    + (if |uniformBuffers| > 0
       then [GroupWrite(descriptorSet, DescriptorTypeUniformBuffer, |images| + |storageBuffers|, uniformBuffers)]
       else [])
  }

  /** The number of non-empty groups. */
  function NonEmptyGroups(images: seq<ImageInfo>, storageBuffers: seq<ImageInfo>, uniformBuffers: seq<ImageInfo>): nat
  {
    (if |images| > 0 then 1 else 0) + (if |storageBuffers| > 0 then 1 else 0) + (if |uniformBuffers| > 0 then 1 else 0)
  }

  /** Appends an empty record and fills it in place, as each branch of
      `WriteDescriptorSets` does with `emplace_back` and
      `writeDescriptorSets[currentSet]`. */
  method Emplace(writes: seq<WriteDescriptorSet>, currentSet: nat, descriptorSet: Handle, descriptorType: nat,
                 binding: int, group: seq<ImageInfo>)
    returns (newWrites: seq<WriteDescriptorSet>, newCurrentSet: nat)
    requires currentSet == |writes|
    ensures newWrites == writes + [GroupWrite(descriptorSet, descriptorType, binding, group)]
    ensures newCurrentSet == |newWrites|
  {
    newWrites := writes + [EmptyWrite];
    newWrites := newWrites[currentSet := newWrites[currentSet].(dstSet := descriptorSet)];
    newWrites := newWrites[currentSet := newWrites[currentSet].(descriptorType := descriptorType)];
    newWrites := newWrites[currentSet := newWrites[currentSet].(dstBinding := U32(binding))];
    newWrites := newWrites[currentSet := newWrites[currentSet].(imageInfo := group)];
    newWrites := newWrites[currentSet := newWrites[currentSet].(descriptorCount := U32(|group|))];
    newCurrentSet := currentSet + 1;
  }

  /** `WriteDescriptorSets`: `setCount` and the records passed to
      `vkUpdateDescriptorSets`. */
  method WriteDescriptorSets(descriptorSet: Handle, imageDescriptors: seq<ImageInfo>,
                             storageBufferDescriptors: seq<ImageInfo>, uniformBufferDescriptors: seq<ImageInfo>)
    returns (setCount: nat, writeDescriptorSets: seq<WriteDescriptorSet>)
    ensures setCount == NonEmptyGroups(imageDescriptors, storageBufferDescriptors, uniformBufferDescriptors)
    ensures writeDescriptorSets == Writes(descriptorSet, imageDescriptors, storageBufferDescriptors, uniformBufferDescriptors)
  {
    var hasImages := |imageDescriptors| > 0;
    var hasStorageBuffers := |storageBufferDescriptors| > 0;
    var hasUniformBuffers := |uniformBufferDescriptors| > 0;
    setCount := (if hasImages then 1 else 0) + (if hasStorageBuffers then 1 else 0) + (if hasUniformBuffers then 1 else 0);
    writeDescriptorSets := [];
    var currentSet := 0;
    if hasImages {
      writeDescriptorSets, currentSet := Emplace(writeDescriptorSets, currentSet, descriptorSet,
                                                 DescriptorTypeStorageImage, 0, imageDescriptors);
    }
    if hasStorageBuffers {
      writeDescriptorSets, currentSet := Emplace(writeDescriptorSets, currentSet, descriptorSet,
                                                 DescriptorTypeStorageBuffer, |imageDescriptors|,
                                                 storageBufferDescriptors);
    }
    if hasUniformBuffers {
      writeDescriptorSets, currentSet := Emplace(writeDescriptorSets, currentSet, descriptorSet,
                                                 DescriptorTypeUniformBuffer,
                                                 |imageDescriptors| + |storageBufferDescriptors|,
                                                 uniformBufferDescriptors);
    }
  }

  /** As many records as `setCount` says, every one for the given set and
      for a non-empty group, in the order images, storage buffers, uniform
      buffers, each carrying its own group (the buffer groups, too, in the
      image-info array). */
  lemma WritesShape(descriptorSet: Handle, images: seq<ImageInfo>, storageBuffers: seq<ImageInfo>,
                    uniformBuffers: seq<ImageInfo>)
    ensures var w := Writes(descriptorSet, images, storageBuffers, uniformBuffers);
            |w| == NonEmptyGroups(images, storageBuffers, uniformBuffers)
            && (forall k :: 0 <= k < |w| ==> w[k].dstSet == descriptorSet && |w[k].imageInfo| > 0)
            && (forall k :: 0 <= k < |w| ==>
                  (w[k].descriptorType == DescriptorTypeStorageImage && w[k].imageInfo == images)
                  || (w[k].descriptorType == DescriptorTypeStorageBuffer && w[k].imageInfo == storageBuffers)
                  || (w[k].descriptorType == DescriptorTypeUniformBuffer && w[k].imageInfo == uniformBuffers))
            && (forall j, k :: 0 <= j < k < |w| ==> Rank(w[j].descriptorType) < Rank(w[k].descriptorType))
  {
  }

  /** A group has a record exactly when it is non-empty. */
  lemma WritesPresence(descriptorSet: Handle, images: seq<ImageInfo>, storageBuffers: seq<ImageInfo>,
                       uniformBuffers: seq<ImageInfo>)
    ensures var w := Writes(descriptorSet, images, storageBuffers, uniformBuffers);
            (|images| > 0 <==> exists k :: 0 <= k < |w| && w[k].descriptorType == DescriptorTypeStorageImage)
            && (|storageBuffers| > 0 <==> exists k :: 0 <= k < |w| && w[k].descriptorType == DescriptorTypeStorageBuffer)
            && (|uniformBuffers| > 0 <==> exists k :: 0 <= k < |w| && w[k].descriptorType == DescriptorTypeUniformBuffer)
  {
    var w := Writes(descriptorSet, images, storageBuffers, uniformBuffers);
    if |images| > 0 {
      assert w[0].descriptorType == DescriptorTypeStorageImage;
    }
    if |storageBuffers| > 0 {
      assert w[if |images| > 0 then 1 else 0].descriptorType == DescriptorTypeStorageBuffer;
    }
    if |uniformBuffers| > 0 {
      assert w[|w| - 1].descriptorType == DescriptorTypeUniformBuffer;
    }
  }

  /** The position of a descriptor type in the emission order. */
  function Rank(descriptorType: nat): nat
  {
    if descriptorType == DescriptorTypeStorageImage then 0
    else if descriptorType == DescriptorTypeStorageBuffer then 1
    else 2
  }

  /** The binding range of a record. */
  predicate Binds(w: WriteDescriptorSet, b: int)
  {
    w.dstBinding <= b < w.dstBinding + w.descriptorCount
  }

  /** Some record's range holds binding `b`. */
  predicate Covered(w: seq<WriteDescriptorSet>, b: int)
  {
    exists k :: 0 <= k < |w| && Binds(w[k], b)
  }

  /** While the total descriptor count fits in 32 bits, the binding ranges
      are laid end to end from 0: every record starts where the previous
      one ends, and the last ends at the total; so the ranges are pairwise
      disjoint and together cover exactly the bindings below the total. */
  lemma BindingsPartition(descriptorSet: Handle, images: seq<ImageInfo>, storageBuffers: seq<ImageInfo>,
                          uniformBuffers: seq<ImageInfo>)
    requires |images| + |storageBuffers| + |uniformBuffers| < Two32
    ensures var w := Writes(descriptorSet, images, storageBuffers, uniformBuffers);
            var total := |images| + |storageBuffers| + |uniformBuffers|;
            (|w| > 0 ==> w[0].dstBinding == 0 && w[|w| - 1].dstBinding + w[|w| - 1].descriptorCount == total)
            && (forall k :: 0 <= k < |w| - 1 ==> w[k + 1].dstBinding == w[k].dstBinding + w[k].descriptorCount)
            && (forall k :: 0 <= k < |w| ==> w[k].descriptorCount == |w[k].imageInfo|)
            && (forall j, k, b :: 0 <= j < k < |w| && Binds(w[j], b) ==> !Binds(w[k], b))
            && (forall b :: 0 <= b < total <==> Covered(w, b))
  {
    var w := Writes(descriptorSet, images, storageBuffers, uniformBuffers);
    var total := |images| + |storageBuffers| + |uniformBuffers|;
    var ni, ns := |images|, |storageBuffers|;
    forall b | 0 <= b < total
      ensures Covered(w, b)
    {
      if b < ni {
        assert Binds(w[0], b);
      } else if b < ni + ns {
        assert Binds(w[if ni > 0 then 1 else 0], b);
      } else {
        assert Binds(w[|w| - 1], b);
      }
    }
  }
}
